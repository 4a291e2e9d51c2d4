/**
 Composing the dataplane Deployment (internal/manifests/operator_placement.go).
 */
module Rendering {
  import opened Options
  import opened Pods
  import opened PodPorts
  import opened Roles
  import opened NativeSidecars
  import opened Listeners
  import opened Identity

  /** A declared sidecar with its own rendered and patched Pod. */
  datatype Part = Part(role: Role, pod: Pod)

  datatype Template = Template(pod: Pod, labels: map<string, string>, anchor: Anchor)

  class Deployment {
    const spec: PodSpec
    var labels: map<string, string>
    var anchor: Anchor

    constructor (template: Template)
      ensures Value() == template && fresh(spec)
    {
      spec := new PodSpec(template.pod);
      labels, anchor := template.labels, template.anchor;
    }

    function Value(): Template
      reads this, spec
    {
      Template(spec.Value(), labels, anchor)
    }
  }

  function RolesOf(parts: seq<Part>): (r: seq<Role>)
    ensures |r| == |parts| && forall i :: 0 <= i < |parts| ==> r[i] == parts[i].role
  {
    seq(|parts|, i requires 0 <= i < |parts| => parts[i].role)
  }

  // ---- Native sidecars of a list ----------------------------------------------------------------

  /** Names of the containers with a restart policy, in order. */
  function NativeNames(cs: seq<Container>): seq<string> {
    if cs == [] then []
    else
      var last := cs[|cs| - 1];
      NativeNames(cs[..|cs| - 1]) + if last.restartPolicy.Some? then [last.name] else []
  }

  /** A container with a restart policy always restarts. */
  predicate NativesRestart(cs: seq<Container>) {
    forall i :: 0 <= i < |cs| && cs[i].restartPolicy.Some? ==> Restartable(cs[i])
  }

  lemma {:induction false} NativeNamesConcat(a: seq<Container>, b: seq<Container>)
    ensures NativeNames(a + b) == NativeNames(a) + NativeNames(b)
    decreases |b|
  {
    if b == [] {
      assert a + b == a;
    } else {
      var n := |b| - 1;
      assert (a + b)[..|a + b| - 1] == a + b[..n];
      NativeNamesConcat(a, b[..n]);
    }
  }

  lemma {:induction false} NativeNamesNone(cs: seq<Container>)
    ensures NativeNames(cs) == [] <==> forall i :: 0 <= i < |cs| ==> cs[i].restartPolicy.None?
    decreases |cs|
  {
    if cs != [] {
      var n := |cs| - 1;
      NativeNamesNone(cs[..n]);
      assert forall i :: 0 <= i < n ==> cs[i] == cs[..n][i];
    }
  }

  lemma {:induction false} NativeNamesAgree(a: seq<Container>, b: seq<Container>)
    requires |a| == |b|
    requires forall i :: 0 <= i < |a| ==> a[i].name == b[i].name && a[i].restartPolicy == b[i].restartPolicy
    ensures NativeNames(a) == NativeNames(b)
    decreases |a|
  {
    if a != [] {
      var n := |a| - 1;
      NativeNamesAgree(a[..n], b[..n]);
    }
  }

  lemma {:induction false} NativeNamesListed(cs: seq<Container>, i: nat)
    requires i < |cs| && cs[i].restartPolicy.Some?
    ensures cs[i].name in NativeNames(cs)
    decreases |cs|
  {
    var n := |cs| - 1;
    if i < n {
      NativeNamesListed(cs[..n], i);
    }
  }

  /** If nobody outside the set is native, the natives are those inside. */
  lemma {:induction false} NativeNamesSelected(cs: seq<Container>, names: set<string>)
    requires NativeNames(Select(cs, names, false)) == []
    ensures NativeNames(cs) == NativeNames(Select(cs, names, true))
    decreases |cs|
  {
    if cs != [] {
      var head, rest := [cs[0]], cs[1..];
      assert cs == head + rest;
      NativeNamesConcat(head, rest);
      if cs[0].name in names {
        NativeNamesConcat(head, Select(rest, names, true));
      } else {
        NativeNamesConcat(head, Select(rest, names, false));
      }
      NativeNamesSelected(rest, names);
    }
  }

  // ---- Composition --------------------------------------------------------------------------

  function Scoped(hash: string -> string, operator: string, c: Container): Container {
    c.(name := ScopedName(hash, operator, c.name))
  }

  function ScopedAll(hash: string -> string, operator: string, cs: seq<Container>): (r: seq<Container>)
    ensures |r| == |cs| && forall i :: 0 <= i < |r| ==> r[i] == Scoped(hash, operator, cs[i])
  {
    seq(|cs|, i requires 0 <= i < |cs| => Scoped(hash, operator, cs[i]))
  }

  /** One-shot initializers first, then the sidecar itself. */
  function Composition(hash: string -> string, operator: string, pod: Pod): seq<Container>
    requires |pod.containers| == 1
  {
    ScopedAll(hash, operator, pod.initContainers)
    + [Scoped(hash, operator, pod.containers[0]).(restartPolicy := Some("Always"))]
  }

  /** The sidecar's own Pod holds its declared container and one-shot initializers only. */
  predicate PartShaped(part: Part, pod: Pod) {
    && |pod.containers| == 1 && pod.containers[0].name == part.role.name
    && forall i :: 0 <= i < |pod.initContainers| ==> pod.initContainers[i].restartPolicy.None?
  }

  /** The sidecar's own Pod passes every check, with its listeners in place. */
  ghost predicate Accepted(hash: string -> string, part: Part, op: Pod) {
    && PartShaped(part, part.pod) && PartShaped(part, op)
    && Configured(hash, part.pod, part.role, false, op)
    && WellFormed(op, part.role.name == "dataplane")
  }

  /** The Pod a part is composed from, if it is accepted. */
  ghost function AcceptedPod(hash: string -> string, part: Part): (r: Option<Pod>)
    ensures r.Some? ==> Accepted(hash, part, r.value)
    ensures r.None? ==> forall op :: !Accepted(hash, part, op)
  {
    if op :| Accepted(hash, part, op) then Some(op) else None
  }

  lemma {:induction false} AcceptedPodIs(hash: string -> string, part: Part, op: Pod)
    requires Accepted(hash, part, op)
    ensures AcceptedPod(hash, part) == Some(op)
  {
    ConfiguredOnce(hash, part.pod, part.role, false, op);
  }

  /** What an accepted part makes of a template: it joins if it is switched on. */
  function Join(hash: string -> string, before: Template, part: Part, op: Option<Pod>): Option<Template>
    requires op.Some? ==> PartShaped(part, op.value)
  {
    if op.None? then None
    else
      var inits := before.pod.initContainers;
      var pod := if part.role.enabled
                 then before.pod.(initContainers := inits + Composition(hash, part.role.name, op.value))
                 else before.pod;
      Some(before.(pod := pod, labels := WithMembership(hash, before.labels, part.role)))
  }

  function WithMembership(hash: string -> string, labels: map<string, string>, sidecar: Role): map<string, string> {
    if sidecar.enabled then labels[MembershipLabel(hash, sidecar.name) := sidecar.name] else labels
  }

  method HasPolicy(cs: seq<Container>) returns (found: bool)
    ensures found <==> exists i :: 0 <= i < |cs| && cs[i].restartPolicy.Some?
  {
    for i := 0 to |cs|
      invariant forall j :: 0 <= j < i ==> cs[j].restartPolicy.None?
    {
      if cs[i].restartPolicy.Some? {
        return true;
      }
    }
    found := false;
  }

  /** The checks on a sidecar's own Pod, made whether or not it is switched on. */
  method CheckPart(hash: string -> string, part: Part) returns (ok: bool, pod: Pod)
    ensures ok ==> Accepted(hash, part, pod)
    ensures !ok ==> forall op :: !Accepted(hash, part, op)
  {
    var role := part.role;
    pod := part.pod;
    if |pod.containers| != 1 || pod.containers[0].name != role.name {
      return false, pod;
    }
    var restartable := HasPolicy(pod.initContainers);
    if restartable {
      return false, pod;
    }
    var op := new PodSpec(pod);
    ok := ConfigureComponentListeners(hash, op, role, false);
    if !ok {
      return;
    }
    pod := op.Value();
    ConfiguringTouchesPortsOnly(hash, part.pod, role, false, pod);
    PartKeepsShape(part, part.pod, pod);
    ConfiguredOnce(hash, part.pod, role, false, pod);
    ok := ValidateComposedPod(pod, role.name == "dataplane");
  }

  method ComposeSidecar(hash: string -> string, deployment: Deployment, part: Part) returns (ok: bool)
    modifies deployment, deployment.spec
    ensures (if ok then Some(deployment.Value()) else None)
            == Join(hash, old(deployment.Value()), part, AcceptedPod(hash, part))
    ensures !ok ==> deployment.Value() == old(deployment.Value())
  {
    var pod;
    ok, pod := CheckPart(hash, part);
    if ok {
      AcceptedPodIs(hash, part, pod);
    }
    if !ok || !part.role.enabled {
      return;
    }
    var name := part.role.name;
    var added := ScopeContainers(hash, name, pod);
    deployment.spec.initContainers := deployment.spec.initContainers + added;
    deployment.labels := deployment.labels[MembershipLabel(hash, name) := name];
  }

  method ScopeContainers(hash: string -> string, operator: string, pod: Pod) returns (r: seq<Container>)
    requires |pod.containers| == 1
    ensures r == Composition(hash, operator, pod)
  {
    r := [];
    for i := 0 to |pod.initContainers|
      invariant r == ScopedAll(hash, operator, pod.initContainers)[..i]
    {
      r := r + [Scoped(hash, operator, pod.initContainers[i])];
    }
    r := r + [Scoped(hash, operator, pod.containers[0]).(restartPolicy := Some("Always"))];
  }

  lemma PartKeepsShape(part: Part, p: Pod, q: Pod)
    requires PartShaped(part, p) && SameButPorts(p, q)
    ensures PartShaped(part, q)
  {
    assert All(p)[0] == p.containers[0] && All(q)[0] == q.containers[0];
    forall i | 0 <= i < |q.initContainers| ensures q.initContainers[i].restartPolicy.None? {
      assert All(q)[i + 1] == q.initContainers[i] && All(p)[i + 1] == p.initContainers[i];
    }
  }

  /** Scoped names of the switched-on sidecars, in palette order. */
  function Expected(hash: string -> string, sidecars: seq<Role>): seq<string> {
    if sidecars == [] then []
    else
      var last := sidecars[|sidecars| - 1];
      Expected(hash, sidecars[..|sidecars| - 1]) + if last.enabled then [ScopedContainer(hash, last)] else []
  }

  lemma {:induction false} CompositionNatives(hash: string -> string, part: Part, pod: Pod)
    requires IsHash(hash) && PartShaped(part, pod)
    ensures NativeNames(Composition(hash, part.role.name, pod)) == [ScopedContainer(hash, part.role)]
    ensures NativesRestart(Composition(hash, part.role.name, pod))
    ensures forall i :: 0 <= i < |Composition(hash, part.role.name, pod)|
              ==> IsManaged(Composition(hash, part.role.name, pod)[i].name)
  {
    var name, cs := part.role.name, Composition(hash, part.role.name, pod);
    var inits, main := ScopedAll(hash, name, pod.initContainers), cs[|cs| - 1];
    NativeNamesNone(inits);
    NativeNamesConcat(inits, [main]);
    assert NativeNames([main]) == NativeNames([]) + [main.name];
    forall i | 0 <= i < |cs| ensures IsManaged(cs[i].name) {
      ScopedNameStarts(hash, name, if i < |inits| then pod.initContainers[i].name else pod.containers[0].name);
    }
  }

  /** What composing a prefix of the palette has built. */
  ghost predicate Composed(hash: string -> string, inits: seq<Container>, sidecars: seq<Role>) {
    && NativeNames(inits) == Expected(hash, sidecars)
    && NativesRestart(inits)
    && forall i :: 0 <= i < |inits| && inits[i].restartPolicy.Some? ==> IsManaged(inits[i].name)
  }

  lemma {:induction false} JoiningComposes(hash: string -> string, before: Template, part: Part, op: Pod,
                                           sidecars: seq<Role>)
    requires IsHash(hash) && PartShaped(part, op) && Composed(hash, before.pod.initContainers, sidecars)
    ensures Composed(hash, Join(hash, before, part, Some(op)).value.pod.initContainers, sidecars + [part.role])
  {
    var all := sidecars + [part.role];
    assert all[..|all| - 1] == sidecars;
    if part.role.enabled {
      CompositionNatives(hash, part, op);
      NativeNamesConcat(before.pod.initContainers, Composition(hash, part.role.name, op));
    }
  }

  // ---- Validation after patches ---------------------------------------------------------------

  /** The dataplane keeps its primary container and exactly the declared sidecars. */
  ghost predicate CompositionIntact(pod: Pod, expected: seq<string>) {
    && |pod.containers| == 1 && pod.containers[0].name == "dataplane"
    && NativeNames(pod.initContainers) == expected && NativesRestart(pod.initContainers)
  }

  method ValidateSidecarComposition(hash: string -> string, pod: Pod, sidecars: seq<Role>) returns (ok: bool)
    ensures ok <==> CompositionIntact(pod, Expected(hash, sidecars))
  {
    if |pod.containers| != 1 || pod.containers[0].name != "dataplane" {
      return false;
    }
    var expected: seq<string> := [];
    for i := 0 to |sidecars|
      invariant expected == Expected(hash, sidecars[..i])
    {
      assert sidecars[..i + 1][..i] == sidecars[..i];
      if sidecars[i].enabled {
        expected := expected + [ScopedContainer(hash, sidecars[i])];
      }
    }
    assert sidecars[..|sidecars|] == sidecars;
    ok := MatchNatives(pod.initContainers, expected);
  }

  method MatchNatives(inits: seq<Container>, expected: seq<string>) returns (ok: bool)
    ensures ok <==> NativeNames(inits) == expected && NativesRestart(inits)
  {
    var index: nat := 0;
    for i := 0 to |inits|
      invariant index <= |expected|
      invariant NativeNames(inits[..i]) == expected[..index] && NativesRestart(inits[..i])
    {
      var container := inits[i];
      assert inits[..i + 1][..i] == inits[..i];
      NativeNamesGrow(inits, i + 1);
      if container.restartPolicy.Some? {
        if container.restartPolicy.value != "Always" || index >= |expected| || container.name != expected[index] {
          return false;
        }
        index := index + 1;
      }
    }
    assert inits[..|inits|] == inits;
    ok := index == |expected|;
  }

  lemma NativeNamesGrow(cs: seq<Container>, n: nat)
    requires n <= |cs|
    ensures NativeNames(cs[..n]) <= NativeNames(cs)
  {
    assert cs == cs[..n] + cs[n..];
    NativeNamesConcat(cs[..n], cs[n..]);
  }

  /** Over TCP, a declared sidecar's slot is used by its own container only, switched on or not. */
  ghost predicate SlotsReserved(hash: string -> string, pod: Pod, sidecars: seq<Role>) {
    forall i :: 0 <= i < |All(pod)| ==> KeepsOffSlots(hash, sidecars, All(pod)[i])
  }

  /** The container uses no slot over TCP but its own. */
  ghost predicate KeepsOffSlots(hash: string -> string, sidecars: seq<Role>, c: Container) {
    forall k, j, l :: 0 <= k < |c.ports| && 0 <= j < |sidecars|
                      && PortKey(c.ports[k]) == Endpoint(PortNumber(sidecars[j], l), "TCP")
      ==> c.name == ScopedContainer(hash, sidecars[j])
  }

  /** The map tells the owner of every slot of the first sidecars. */
  ghost predicate OwnersKnown(hash: string -> string, sidecars: seq<Role>, n: nat, owners: map<int, string>) {
    && n <= |sidecars|
    && (forall j, l :: 0 <= j < n ==> PortNumber(sidecars[j], l) in owners
                                      && owners[PortNumber(sidecars[j], l)] == ScopedContainer(hash, sidecars[j]))
    && (forall number :: number in owners ==> SlotOf(sidecars, n, number))
  }

  /** The number lies in a slot of the first sidecars. */
  ghost predicate SlotOf(sidecars: seq<Role>, n: nat, number: int)
    requires n <= |sidecars|
  {
    exists j, l :: 0 <= j < n && PortNumber(sidecars[j], l) == number
  }

  lemma {:induction false} OwnersGrow(hash: string -> string, sidecars: seq<Role>, n: nat, owners: map<int, string>,
                                      after: map<int, string>)
    requires SidecarsLegal(hash, sidecars) && n < |sidecars| && OwnersKnown(hash, sidecars, n, owners)
    requires var owner := ScopedContainer(hash, sidecars[n]);
             after == owners[PortNumber(sidecars[n], Grpc) := owner][PortNumber(sidecars[n], Http) := owner]
    ensures OwnersKnown(hash, sidecars, n + 1, after)
  {
    forall j, l | 0 <= j < n + 1
      ensures PortNumber(sidecars[j], l) in after
              && after[PortNumber(sidecars[j], l)] == ScopedContainer(hash, sidecars[j])
    {
      if j < n {
        SlotsAreApart(sidecars[j], l, sidecars[n], Grpc);
        SlotsAreApart(sidecars[j], l, sidecars[n], Http);
      } else {
        assert l == Grpc || l == Http;
      }
    }
    forall number | number in after ensures SlotOf(sidecars, n + 1, number) {
      if number in owners {
        assert SlotOf(sidecars, n, number);
      } else {
        assert PortNumber(sidecars[n], Grpc) == number || PortNumber(sidecars[n], Http) == number;
      }
    }
  }

  /** The port is no other container's slot. */
  predicate PortAllowed(owners: map<int, string>, name: string, port: ContainerPort) {
    port.number in owners && owners[port.number] != name ==> !(port.protocol == "" || port.protocol == "TCP")
  }

  predicate PortsAllowed(owners: map<int, string>, container: Container) {
    forall k :: 0 <= k < |container.ports| ==> PortAllowed(owners, container.name, container.ports[k])
  }

  method CheckReservedPorts(owners: map<int, string>, pod: Pod) returns (ok: bool)
    ensures ok <==> forall i :: 0 <= i < |All(pod)| ==> PortsAllowed(owners, All(pod)[i])
  {
    for i := 0 to |All(pod)|
      invariant forall c :: 0 <= c < i ==> PortsAllowed(owners, All(pod)[c])
    {
      var container := All(pod)[i];
      for k := 0 to |container.ports|
        invariant forall l :: 0 <= l < k ==> PortAllowed(owners, container.name, container.ports[l])
      {
        if !PortAllowed(owners, container.name, container.ports[k]) {
          return false;
        }
      }
    }
    ok := true;
  }

  /** What the map allows of one container is what the slots allow. */
  lemma {:induction false} OwnersDecideOne(hash: string -> string, sidecars: seq<Role>, owners: map<int, string>,
                                           c: Container)
    requires OwnersKnown(hash, sidecars, |sidecars|, owners)
    ensures PortsAllowed(owners, c) <==> KeepsOffSlots(hash, sidecars, c)
  {
    if !PortsAllowed(owners, c) {
      var k :| 0 <= k < |c.ports| && !PortAllowed(owners, c.name, c.ports[k]);
      assert SlotOf(sidecars, |sidecars|, c.ports[k].number);
    }
  }

  method ValidateReservedColocatedPorts(hash: string -> string, pod: Pod, sidecars: seq<Role>) returns (ok: bool)
    requires SidecarsLegal(hash, sidecars)
    ensures ok <==> SlotsReserved(hash, pod, sidecars)
  {
    var owners: map<int, string> := map[];
    for n := 0 to |sidecars|
      invariant OwnersKnown(hash, sidecars, n, owners)
    {
      var owner := ScopedContainer(hash, sidecars[n]);
      var after := owners[PortNumber(sidecars[n], Grpc) := owner][PortNumber(sidecars[n], Http) := owner];
      OwnersGrow(hash, sidecars, n, owners, after);
      owners := after;
    }
    forall i | 0 <= i < |All(pod)|
      ensures PortsAllowed(owners, All(pod)[i]) <==> KeepsOffSlots(hash, sidecars, All(pod)[i])
    {
      OwnersDecideOne(hash, sidecars, owners, All(pod)[i]);
    }
    ok := CheckReservedPorts(owners, pod);
  }

  // ---- The whole rendering ----------------------------------------------------------------------

  function ComposedLabels(hash: string -> string, labels: map<string, string>,
                          sidecars: seq<Role>): map<string, string> {
    if sidecars == [] then labels
    else WithMembership(hash, ComposedLabels(hash, labels, sidecars[..|sidecars| - 1]), sidecars[|sidecars| - 1])
  }

  /** What a rendered dataplane template guarantees, whatever its patches were. */
  ghost predicate Delivers(hash: string -> string, base: Template, sidecars: seq<Role>, r: Template) {
    && CompositionIntact(r.pod, Expected(hash, sidecars))
    && SidecarsWired(hash, r.pod, sidecars, |sidecars|)
    && TargetsReserved(hash, r.pod, sidecars, |sidecars|)
    && SlotsReserved(hash, r.pod, sidecars)
    && WellFormed(r.pod, true)
    && ReservedLabels(r.labels) == ReservedLabels(ComposedLabels(hash, base.labels, sidecars))
    && r.anchor == base.anchor
  }

  /** In a delivered dataplane nobody but a declared sidecar uses its two ports over TCP, switched on or not. */
  lemma {:induction false} SlotsAreExclusive(hash: string -> string, base: Template, sidecars: seq<Role>, r: Template,
                                             c: Container, port: ContainerPort, j: nat)
    requires IsHash(hash) && Delivers(hash, base, sidecars, r) && j < |sidecars| && sidecars[j].kind.Sidecar?
    requires c in r.pod.containers + r.pod.initContainers && port in c.ports && port.protocol in {"", "TCP"}
    requires port.number in {8080 + 2 * sidecars[j].portIndex, 8081 + 2 * sidecars[j].portIndex}
    ensures c.name == ScopedContainer(hash, sidecars[j])
    ensures |r.pod.containers| == 1 && c in r.pod.initContainers
  {
    var l := if port.number == 8080 + 2 * sidecars[j].portIndex then Grpc else Http;
    var i :| 0 <= i < |All(r.pod)| && All(r.pod)[i] == c;
    assert KeepsOffSlots(hash, sidecars, All(r.pod)[i]);
    var k :| 0 <= k < |c.ports| && c.ports[k] == port;
    assert PortKey(c.ports[k]) == Endpoint(PortNumber(sidecars[j], l), "TCP");
    ScopedNameStarts(hash, sidecars[j].name, sidecars[j].name);
    assert c != r.pod.containers[0];
  }

  /** The captured containers: managed init containers, in order. */
  function Captured(inits: seq<Container>): seq<Container> {
    if inits == [] then []
    else
      var last := inits[|inits| - 1];
      Captured(inits[..|inits| - 1]) + if IsManaged(last.name) then [last] else []
  }

  lemma {:induction false} CapturedNatives(inits: seq<Container>)
    requires forall i :: 0 <= i < |inits| && inits[i].restartPolicy.Some? ==> IsManaged(inits[i].name)
    requires NativesRestart(inits)
    ensures NativeNames(Captured(inits)) == NativeNames(inits) && NativesRestart(Captured(inits))
    decreases |inits|
  {
    if inits != [] {
      var n := |inits| - 1;
      var last, before := inits[n], Captured(inits[..n]);
      CapturedNatives(inits[..n]);
      if IsManaged(last.name) {
        NativeNamesConcat(before, [last]);
        assert [last][..0] == [];
        assert NativeNames([last]) == if last.restartPolicy.Some? then [last.name] else [];
        assert NativesRestart(before + [last]);
      } else {
        assert Captured(inits) == before;
      }
    }
  }

  lemma {:induction false} NativesAreNamed(cs: seq<Container>, name: string)
    requires name in NativeNames(cs)
    ensures name in Names(cs)
    decreases |cs|
  {
    var n := |cs| - 1;
    if name in NativeNames(cs[..n]) {
      NativesAreNamed(cs[..n], name);
      var i :| 0 <= i < n && cs[..n][i].name == name;
      assert cs[i].name == name;
    } else {
      assert cs[n].name == name;
    }
  }

  /** Restoring after a patch that kept the natives leaves exactly the captured natives. */
  lemma RestoredNatives(patched: seq<Container>, captured: seq<Container>)
    requires NativesRestart(captured) && NativeNames(patched) == NativeNames(captured)
    ensures NativeNames(Restored(patched, captured)) == NativeNames(captured)
    ensures NativesRestart(Restored(patched, captured))
  {
    var names, r, fill := Names(captured), Restored(patched, captured), RefreshedAll(patched, captured);
    CapturedComeBack(patched, captured);
    var others := Select(patched, names, false);
    SelectIsInside(patched, names, false);
    forall i | 0 <= i < |others| ensures others[i].restartPolicy.None? {
      if others[i].restartPolicy.Some? {
        var j :| 0 <= j < |patched| && patched[j] == others[i];
        NativeNamesListed(patched, j);
        NativesAreNamed(captured, others[i].name);
      }
    }
    NativeNamesNone(others);
    NativeNamesSelected(r, names);
    NativeNamesAgree(fill, captured);
    forall i | 0 <= i < |r| && r[i].restartPolicy.Some? ensures Restartable(r[i]) {
      InsideOrOutside(r, names, i);
    }
  }

  lemma {:induction false} SelectIsInside(cs: seq<Container>, names: set<string>, inside: bool)
    ensures forall i :: 0 <= i < |Select(cs, names, inside)| ==>
              Select(cs, names, inside)[i] in cs && (Select(cs, names, inside)[i].name in names <==> inside)
    decreases |cs|
  {
    if cs != [] {
      SelectIsInside(cs[1..], names, inside);
    }
  }

  lemma {:induction false} InsideOrOutside(cs: seq<Container>, names: set<string>, i: nat)
    requires i < |cs|
    ensures cs[i] in Select(cs, names, true) || cs[i] in Select(cs, names, false)
    decreases |cs|
  {
    if i > 0 {
      InsideOrOutside(cs[1..], names, i - 1);
    }
  }

  lemma NativesKeptByPorts(p: Pod, q: Pod, expected: seq<string>)
    requires SameButPorts(p, q) && CompositionIntact(p, expected)
    ensures CompositionIntact(q, expected)
  {
    assert All(p)[0] == p.containers[0] && All(q)[0] == q.containers[0];
    forall i | 0 <= i < |p.initContainers|
      ensures p.initContainers[i].name == q.initContainers[i].name
              && p.initContainers[i].restartPolicy == q.initContainers[i].restartPolicy
    {
      assert All(q)[i + 1] == q.initContainers[i] && All(p)[i + 1] == p.initContainers[i];
    }
    NativeNamesAgree(p.initContainers, q.initContainers);
  }

  lemma {:induction false} MembershipsAreReserved(hash: string -> string, labels: map<string, string>,
                                                  sidecars: seq<Role>)
    ensures LABEL_COMPONENT in labels ==>
              LABEL_COMPONENT in ComposedLabels(hash, labels, sidecars)
              && ComposedLabels(hash, labels, sidecars)[LABEL_COMPONENT] == labels[LABEL_COMPONENT]
    decreases |sidecars|
  {
    if sidecars != [] {
      MembershipsAreReserved(hash, labels, sidecars[..|sidecars| - 1]);
      var key := MembershipLabel(hash, sidecars[|sidecars| - 1].name);
      assert key[..33] == OPERATOR_MEMBERSHIP_PREFIX && OPERATOR_MEMBERSHIP_PREFIX[24] != LABEL_COMPONENT[24];
    }
  }

  /** Accepted Pods of parts, part by part. */
  ghost predicate Shaped(parts: seq<Part>, ops: seq<Option<Pod>>) {
    && |ops| == |parts|
    && forall i :: 0 <= i < |parts| && ops[i].Some? ==> PartShaped(parts[i], ops[i].value)
  }

  ghost function AcceptedPods(hash: string -> string, parts: seq<Part>): (ops: seq<Option<Pod>>)
    ensures Shaped(parts, ops) && forall i :: 0 <= i < |parts| ==> ops[i] == AcceptedPod(hash, parts[i])
  {
    seq(|parts|, i requires 0 <= i < |parts| => AcceptedPod(hash, parts[i]))
  }

  /** The first n parts join in palette order, if all of them are accepted. */
  function JoinAll(hash: string -> string, base: Template, parts: seq<Part>, ops: seq<Option<Pod>>,
                   n: nat): Option<Template>
    requires n <= |parts| && Shaped(parts, ops)
    decreases n
  {
    if n == 0 then Some(base)
    else
      var before := JoinAll(hash, base, parts, ops, n - 1);
      if before.None? then None else Join(hash, before.value, parts[n - 1], ops[n - 1])
  }

  /** One refused part refuses the palette. */
  lemma {:induction false} RefusedStaysRefused(hash: string -> string, base: Template, parts: seq<Part>,
                                               ops: seq<Option<Pod>>, n: nat, k: nat)
    requires n <= k <= |parts| && Shaped(parts, ops) && JoinAll(hash, base, parts, ops, n).None?
    ensures JoinAll(hash, base, parts, ops, k).None?
    decreases k
  {
    if n < k {
      RefusedStaysRefused(hash, base, parts, ops, n, k - 1);
    }
  }

  /** A composed template has the switched-on sidecars as natives, and their membership labels. */
  lemma {:induction false} JoinAllComposes(hash: string -> string, base: Template, parts: seq<Part>,
                                           ops: seq<Option<Pod>>, n: nat)
    requires IsHash(hash) && NativeNames(base.pod.initContainers) == []
    requires n <= |parts| && Shaped(parts, ops) && JoinAll(hash, base, parts, ops, n).Some?
    ensures Composed(hash, JoinAll(hash, base, parts, ops, n).value.pod.initContainers, RolesOf(parts)[..n])
    ensures JoinAll(hash, base, parts, ops, n).value.labels == ComposedLabels(hash, base.labels, RolesOf(parts)[..n])
    ensures JoinAll(hash, base, parts, ops, n).value.anchor == base.anchor
    decreases n
  {
    var roles := RolesOf(parts);
    if n == 0 {
      NativeNamesNone(base.pod.initContainers);
    } else {
      var before := JoinAll(hash, base, parts, ops, n - 1).value;
      JoinAllComposes(hash, base, parts, ops, n - 1);
      JoiningComposes(hash, before, parts[n - 1], ops[n - 1].value, roles[..n - 1]);
      assert roles[..n] == roles[..n - 1] + [parts[n - 1].role] && roles[..n][..n - 1] == roles[..n - 1];
    }
  }

  /** Composing the palette onto the rendered base. */
  method ComposeAll(hash: string -> string, deployment: Deployment, parts: seq<Part>) returns (ok: bool)
    modifies deployment, deployment.spec
    ensures (if ok then Some(deployment.Value()) else None)
         == JoinAll(hash, old(deployment.Value()), parts, AcceptedPods(hash, parts), |parts|)
  {
    ghost var base, ops := deployment.Value(), AcceptedPods(hash, parts);
    for n := 0 to |parts|
      invariant JoinAll(hash, base, parts, ops, n) == Some(deployment.Value())
    {
      ok := ComposeSidecar(hash, deployment, parts[n]);
      if !ok {
        RefusedStaysRefused(hash, base, parts, ops, n + 1, |parts|);
        return;
      }
    }
    ok := true;
  }

  method CaptureNatives(inits: seq<Container>) returns (r: seq<Container>)
    ensures r == Captured(inits)
  {
    r := [];
    for i := 0 to |inits|
      invariant r == Captured(inits[..i])
    {
      assert inits[..i + 1][..i] == inits[..i];
      if IsManaged(inits[i].name) {
        r := r + [inits[i]];
      }
    }
    assert inits[..|inits|] == inits;
  }

  /** CaptureWorkloadIdentity: reserved labels, the anchor, and the managed containers of a dataplane. */
  datatype WorkloadIdentity = WorkloadIdentity(
    labels: map<string, string>, anchor: Anchor, manageNatives: bool, natives: seq<Container>)

  predicate IsDataplane(labels: map<string, string>) {
    LABEL_COMPONENT in labels && labels[LABEL_COMPONENT] == "dataplane"
  }

  function IdentityOf(t: Template): WorkloadIdentity {
    WorkloadIdentity(ReservedLabels(t.labels), t.anchor, IsDataplane(t.labels),
                     if IsDataplane(t.labels) then Captured(t.pod.initContainers) else [])
  }

  /** A template with a captured identity put back. */
  function WithIdentity(t: Template, identity: WorkloadIdentity): Template {
    Template(if identity.manageNatives
             then t.pod.(initContainers := Restored(t.pod.initContainers, identity.natives)) else t.pod,
             MergeIdentityLabels(t.labels, identity.labels), identity.anchor)
  }

  method CaptureWorkloadIdentity(deployment: Deployment) returns (identity: WorkloadIdentity)
    ensures identity == IdentityOf(deployment.Value())
  {
    var labels := ReservedLabels(deployment.labels);
    var manage := LABEL_COMPONENT in labels && labels[LABEL_COMPONENT] == "dataplane";
    var natives: seq<Container> := [];
    if manage {
      natives := CaptureNatives(deployment.spec.initContainers);
    }
    identity := WorkloadIdentity(labels, deployment.anchor, manage, natives);
  }

  method RestoreWorkloadIdentity(deployment: Deployment, identity: WorkloadIdentity)
    modifies deployment, deployment.spec
    ensures deployment.Value() == WithIdentity(old(deployment.Value()), identity)
  {
    deployment.anchor := identity.anchor;
    deployment.labels := MergeIdentityLabels(deployment.labels, identity.labels);
    if identity.manageNatives {
      deployment.spec.RestoreNativeSidecars(identity.natives);
    }
  }

  /** Replaces the template by what the patches make of it. */
  method ApplyPatches(deployment: Deployment, patch: Template -> Option<Template>) returns (ok: bool)
    modifies deployment, deployment.spec
    ensures (if ok then Some(deployment.Value()) else None) == patch(old(deployment.Value()))
    ensures !ok ==> deployment.Value() == old(deployment.Value())
  {
    var patched := patch(deployment.Value());
    if patched.None? {
      return false;
    }
    var pod := patched.value.pod;
    deployment.spec.containers, deployment.spec.initContainers := pod.containers, pod.initContainers;
    deployment.labels, deployment.anchor := patched.value.labels, patched.value.anchor;
    ok := true;
  }

  /** Whatever patches did, labels the operator owns, owner, selector, pin and strategy are as captured. */
  lemma IdentitySurvivesPatches(before: Template, patched: Template)
    ensures var after := WithIdentity(patched, IdentityOf(before));
            && ReservedLabels(after.labels) == ReservedLabels(before.labels) && after.anchor == before.anchor
            && after.pod.containers == patched.pod.containers
            && (forall key :: key in patched.labels && !IsReserved(key) ==>
                  key in after.labels && after.labels[key] == patched.labels[key])
    ensures var after := WithIdentity(patched, IdentityOf(before));
            forall key :: key in {LABEL_YANET, LABEL_BOX_TYPE, LABEL_COMPONENT, LABEL_NUMA, LABEL_NODE, "app"}
                          || HasPrefix(key, "yanet.yanet-platform.io/operator-") ==>
              (key in after.labels <==> key in before.labels)
              && (key in before.labels ==> after.labels[key] == before.labels[key])
  {
  }

  /** Patching a composed template, if the patches apply and keep the composition. */
  ghost function Patched(hash: string -> string, before: Template, sidecars: seq<Role>,
                         patch: Template -> Option<Template>): Option<Template> {
    var patched := patch(before);
    if patched.Some? && CompositionIntact(patched.value.pod, Expected(hash, sidecars))
    then Some(WithIdentity(patched.value, IdentityOf(before))) else None
  }

  lemma {:induction false} IdentityIsBack(hash: string -> string, before: Template, sidecars: seq<Role>,
                                          patched: Template, after: Template)
    requires Composed(hash, before.pod.initContainers, sidecars) && IsDataplane(before.labels)
    requires CompositionIntact(patched.pod, Expected(hash, sidecars))
    requires after == WithIdentity(patched, IdentityOf(before))
    ensures CompositionIntact(after.pod, Expected(hash, sidecars))
    ensures ReservedLabels(after.labels) == ReservedLabels(before.labels) && after.anchor == before.anchor
  {
    IdentitySurvivesPatches(before, patched);
    CapturedNatives(before.pod.initContainers);
    RestoredNatives(patched.pod.initContainers, Captured(before.pod.initContainers));
  }

  /** Patches, the composition check, and RestoreWorkloadIdentity. */
  method PatchAndRestore(hash: string -> string, deployment: Deployment, sidecars: seq<Role>,
                         patch: Template -> Option<Template>) returns (ok: bool)
    requires Composed(hash, deployment.spec.initContainers, sidecars) && IsDataplane(deployment.labels)
    modifies deployment, deployment.spec
    ensures ok ==> CompositionIntact(deployment.spec.Value(), Expected(hash, sidecars))
                   && ReservedLabels(deployment.labels) == ReservedLabels(old(deployment.labels))
                   && deployment.anchor == old(deployment.anchor)
    ensures (if ok then Some(deployment.Value()) else None) == Patched(hash, old(deployment.Value()), sidecars, patch)
  {
    ghost var before := deployment.Value();
    var identity := CaptureWorkloadIdentity(deployment);
    ok := ApplyPatches(deployment, patch);
    if !ok {
      return;
    }
    ghost var patched := deployment.Value();
    ok := ValidateSidecarComposition(hash, deployment.spec.Value(), sidecars);
    if !ok {
      return;
    }
    RestoreWorkloadIdentity(deployment, identity);
    IdentityIsBack(hash, before, sidecars, patched, deployment.Value());
  }

  /** The Pod with its listeners in place, if it then passes its checks. */
  ghost function Finished(hash: string -> string, before: Pod, role: Role, sidecars: seq<Role>,
                          dataplane: bool): Option<Pod> {
    var after := ConfigureAll(hash, before, role, sidecars);
    if after.Some? && WellFormed(after.value, dataplane) && SlotsReserved(hash, after.value, sidecars)
    then after else None
  }

  /** Listeners and the checks on the finished Pod. */
  method FinishPod(hash: string -> string, spec: PodSpec, role: Role, sidecars: seq<Role>, dataplane: bool)
    returns (ok: bool)
    requires Renderable(hash, role, sidecars) && CompositionIntact(spec.Value(), Expected(hash, sidecars))
    modifies spec
    ensures ok ==> CompositionIntact(spec.Value(), Expected(hash, sidecars))
                   && SidecarsWired(hash, spec.Value(), sidecars, |sidecars|)
    ensures ok ==> TargetsReserved(hash, spec.Value(), sidecars, |sidecars|)
    ensures ok ==> SlotsReserved(hash, spec.Value(), sidecars) && WellFormed(spec.Value(), dataplane)
    ensures (if ok then Some(spec.Value()) else None) == Finished(hash, old(spec.Value()), role, sidecars, dataplane)
  {
    ghost var before := spec.Value();
    ok := ConfigureListeners(hash, spec, role, sidecars);
    NativesKeptByPorts(before, spec.Value(), Expected(hash, sidecars));
    if !ok {
      return;
    }
    ok := ValidateComposedPod(spec.Value(), dataplane);
    if !ok || |sidecars| == 0 {
      return;
    }
    ok := ValidateReservedColocatedPorts(hash, spec.Value(), sidecars);
  }

  /** The whole palette is composed, and the component label is still the dataplane's. */
  lemma {:induction false} PaletteIsComposed(hash: string -> string, base: Template, parts: seq<Part>,
                                             ops: seq<Option<Pod>>)
    requires IsHash(hash) && NativeNames(base.pod.initContainers) == [] && LABEL_COMPONENT in base.labels
    requires Shaped(parts, ops) && JoinAll(hash, base, parts, ops, |parts|).Some?
    ensures var composed, sidecars := JoinAll(hash, base, parts, ops, |parts|).value, RolesOf(parts);
            && Composed(hash, composed.pod.initContainers, sidecars)
            && composed.labels == ComposedLabels(hash, base.labels, sidecars) && composed.anchor == base.anchor
            && LABEL_COMPONENT in composed.labels && composed.labels[LABEL_COMPONENT] == base.labels[LABEL_COMPONENT]
  {
    JoinAllComposes(hash, base, parts, ops, |parts|);
    assert RolesOf(parts)[..|parts|] == RolesOf(parts);
    MembershipsAreReserved(hash, base.labels, RolesOf(parts));
  }

  lemma ComponentIsKept(before: map<string, string>, after: map<string, string>)
    requires ReservedLabels(after) == ReservedLabels(before) && LABEL_COMPONENT in before
    ensures LABEL_COMPONENT in after && after[LABEL_COMPONENT] == before[LABEL_COMPONENT]
  {
    assert ReservedLabels(before)[LABEL_COMPONENT] == before[LABEL_COMPONENT];
    assert ReservedLabels(after)[LABEL_COMPONENT] == before[LABEL_COMPONENT];
  }

  /** The template composed, patched and restored, if every step succeeds. */
  ghost function Prepared(hash: string -> string, base: Template, parts: seq<Part>,
                          patch: Template -> Option<Template>): Option<Template> {
    var composed := JoinAll(hash, base, parts, AcceptedPods(hash, parts), |parts|);
    if composed.None? then None else Patched(hash, composed.value, RolesOf(parts), patch)
  }

  method Prepare(hash: string -> string, deployment: Deployment, parts: seq<Part>, patch: Template -> Option<Template>)
    returns (ok: bool)
    requires IsHash(hash) && NativeNames(deployment.spec.initContainers) == [] && IsDataplane(deployment.labels)
    modifies deployment, deployment.spec
    ensures (if ok then Some(deployment.Value()) else None) == Prepared(hash, old(deployment.Value()), parts, patch)
    ensures ok ==> CompositionIntact(deployment.spec.Value(), Expected(hash, RolesOf(parts)))
                   && deployment.anchor == old(deployment.anchor) && IsDataplane(deployment.labels)
    ensures ok ==> ReservedLabels(deployment.labels)
                   == ReservedLabels(ComposedLabels(hash, old(deployment.labels), RolesOf(parts)))
  {
    ghost var base := deployment.Value();
    ok := ComposeAll(hash, deployment, parts);
    if !ok {
      return;
    }
    ghost var composed := deployment.Value();
    PaletteIsComposed(hash, base, parts, AcceptedPods(hash, parts));
    ok := PatchAndRestore(hash, deployment, RolesOf(parts), patch);
    if ok {
      ComponentIsKept(composed.labels, deployment.labels);
    }
  }

  /** All steps of a rendering, one after the other. */
  ghost function Rendered(hash: string -> string, base: Template, role: Role, parts: seq<Part>,
                          patch: Template -> Option<Template>): Option<Template> {
    var prepared := Prepared(hash, base, parts, patch);
    if prepared.None? then None
    else
      var pod := Finished(hash, prepared.value.pod, role, RolesOf(parts), true);
      if pod.None? then None else Some(prepared.value.(pod := pod.value))
  }

  /**
   RenderDeployments for the dataplane: whatever the patches do to the composed template, a rendering that
   succeeds has exactly the switched-on sidecars as native sidecars in palette order, each of their listeners
   leads to one port in the role's slot, no container ever clashes with another, slots of switched-off roles
   stay free, and labels, owner, node pin and strategy are those composed before the patches. It fails only where a
   step does.
   */
  method RenderDataplane(hash: string -> string, base: Template, role: Role, parts: seq<Part>,
                         patch: Template -> Option<Template>) returns (r: Option<Template>)
    requires IsHash(hash) && role.kind.Dataplane? && SidecarsLegal(hash, RolesOf(parts))
    requires NativeNames(base.pod.initContainers) == []
    requires IsDataplane(base.labels)
    ensures r == Rendered(hash, base, role, parts, patch)
    ensures r.Some? ==> Delivers(hash, base, RolesOf(parts), r.value)
  {
    var deployment := new Deployment(base);
    var ok := Prepare(hash, deployment, parts, patch);
    if !ok {
      return None;
    }
    ok := FinishPod(hash, deployment.spec, role, RolesOf(parts), IsDataplane(deployment.labels));
    if !ok {
      return None;
    }
    r := Some(deployment.Value());
  }

  // ---- Standalone roles ---------------------------------------------------------------------------------

  /** All steps for a component without sidecars. */
  ghost function RenderedStandalone(hash: string -> string, base: Template, role: Role,
                                    patch: Template -> Option<Template>): Option<Template> {
    var patched := patch(base);
    if patched.None? then None
    else
      var restored := WithIdentity(patched.value, IdentityOf(base));
      var pod := Finished(hash, restored.pod, role, [], IsDataplane(restored.labels));
      if pod.None? then None else Some(restored.(pod := pod.value))
  }

  /** Listeners and checks of a Pod without sidecars. */
  method FinishStandalone(hash: string -> string, spec: PodSpec, role: Role, dataplane: bool) returns (ok: bool)
    requires Renderable(hash, role, [])
    modifies spec
    ensures ok ==> Wired(hash, spec.Value(), role, false) && WellFormed(spec.Value(), dataplane)
    ensures (if ok then Some(spec.Value()) else None) == Finished(hash, old(spec.Value()), role, [], dataplane)
  {
    ok := ConfigureListeners(hash, spec, role, []);
    if ok {
      ok := ValidateComposedPod(spec.Value(), dataplane);
    }
  }

  /** What a rendered standalone template guarantees, whatever its patches were. */
  ghost predicate DeliversStandalone(hash: string -> string, base: Template, role: Role, r: Template) {
    && Wired(hash, r.pod, role, false) && WellFormed(r.pod, IsDataplane(r.labels))
    && ReservedLabels(r.labels) == ReservedLabels(base.labels) && r.anchor == base.anchor
  }

  /**
   RenderDeployments for an operator, the controlplane or the bird adapter: whatever the patches do, a rendering that
   succeeds has every listener of the role on exactly one port of its container, and the identity it started with.
   */
  method RenderStandalone(hash: string -> string, base: Template, role: Role, patch: Template -> Option<Template>)
    returns (r: Option<Template>)
    requires IsHash(hash) && !role.kind.Dataplane? && !role.kind.Sidecar? && ListenersDistinct(role)
    ensures r == RenderedStandalone(hash, base, role, patch)
    ensures r.Some? ==> DeliversStandalone(hash, base, role, r.value)
  {
    var deployment := new Deployment(base);
    var identity := CaptureWorkloadIdentity(deployment);
    var ok := ApplyPatches(deployment, patch);
    if !ok {
      return None;
    }
    IdentitySurvivesPatches(base, deployment.Value());
    RestoreWorkloadIdentity(deployment, identity);
    ghost var restored := deployment.Value();
    ok := FinishStandalone(hash, deployment.spec, role, IsDataplane(deployment.labels));
    if !ok {
      return None;
    }
    r := Some(deployment.Value());
    assert r == Some(restored.(pod := r.value.pod));
  }

  /** The container that answers for a standalone role. */
  ghost predicate AnswersFor(role: Role, container: string) {
    match role.kind
    case Operator => role.containers != [] && container == role.containers[0]
    case Controlplane => container == "controlplane"
    case BirdAdapter => container == "bird-adapter"
    case _ => false
  }

  /**
   Where a rendered standalone role listens: gRPC behind the port name "grpc" at 8080 and HTTP behind "http" at 8081,
   in an operator's first container or the fixed component's own. A controlplane has both.
   */
  lemma {:induction false} StandaloneListens(hash: string -> string, base: Template, role: Role, r: Template,
                                             container: string)
    requires DeliversStandalone(hash, base, role, r) && AnswersFor(role, container)
    ensures Grpc in ListenersOf(role) ==> LeadsTo(r.pod, "grpc", container, 8080)
    ensures Http in ListenersOf(role) ==> LeadsTo(r.pod, "http", container, 8081)
    ensures role.kind.Controlplane? ==> Grpc in ListenersOf(role) && Http in ListenersOf(role)
    ensures !role.kind.Controlplane? && role.listeners.None? ==> ListenersOf(role) == [Grpc]
  {
  }
}
