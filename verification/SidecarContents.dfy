/**
 What the containers of a composed dataplane hold (composeSidecar and RenderDeployments in
 internal/manifests/operator_placement.go): every initializer and every sidecar of a switched-on role is there, in
 order, with its own content, and patches change content only.
 */
module SidecarContents {
  import opened Options
  import opened Filters
  import opened Pods
  import opened PodPorts
  import opened Roles
  import opened NativeSidecars
  import opened Listeners
  import opened Identity
  import opened Rendering

  // ---- Composing ------------------------------------------------------------------------------------

  /** The container is the original under its scoped name. */
  ghost predicate StandsFor(hash: string -> string, operator: string, c: Container, original: Container,
                            policy: Option<string>) {
    && c.name == ScopedName(hash, operator, original.name)
    && c.rest == original.rest && c.ports == original.ports && c.restartPolicy == policy
  }

  ghost predicate AllAccepted(parts: seq<Part>, ops: seq<Option<Pod>>, n: nat) {
    n <= |parts| && Shaped(parts, ops) && forall j :: 0 <= j < n ==> ops[j].Some?
  }

  /** The number of containers of the first n parts: the initializers of the switched-on ones, and one each. */
  ghost function Added(parts: seq<Part>, ops: seq<Option<Pod>>, n: nat): nat
    requires AllAccepted(parts, ops, n)
    decreases n
  {
    if n == 0 then 0
    else Added(parts, ops, n - 1) + if parts[n - 1].role.enabled then |ops[n - 1].value.initContainers| + 1 else 0
  }

  /** The initializers of the part in their order, then the part itself, always restarting. */
  ghost predicate Stands(hash: string -> string, block: seq<Container>, part: Part, op: Pod)
    requires PartShaped(part, op)
  {
    var n := |op.initContainers|;
    && |block| == n + 1
    && (forall k :: 0 <= k < n ==> StandsFor(hash, part.role.name, block[k], op.initContainers[k], None))
    && StandsFor(hash, part.role.name, block[n], op.containers[0], Some("Always"))
  }

  /** They stand at that place of the list. */
  ghost predicate Holds(hash: string -> string, inits: seq<Container>, start: nat, part: Part, op: Pod)
    requires PartShaped(part, op)
  {
    var end := start + |op.initContainers| + 1;
    end <= |inits| && Stands(hash, inits[start..end], part, op)
  }

  /** Every switched-on part among the first n stands where its predecessors leave it. */
  ghost predicate AllHold(hash: string -> string, base: nat, parts: seq<Part>, ops: seq<Option<Pod>>, n: nat,
                          inits: seq<Container>)
    requires AllAccepted(parts, ops, n)
  {
    forall j :: 0 <= j < n && parts[j].role.enabled ==>
      Holds(hash, inits, base + Added(parts, ops, j), parts[j], ops[j].value)
  }

  /** The containers of the base, then those of every switched-on part in palette order, and nothing else. */
  ghost predicate Built(hash: string -> string, base: seq<Container>, parts: seq<Part>, ops: seq<Option<Pod>>, n: nat,
                        inits: seq<Container>)
    requires AllAccepted(parts, ops, n)
  {
    && |inits| == |base| + Added(parts, ops, n) && inits[..|base|] == base
    && AllHold(hash, |base|, parts, ops, n, inits)
  }

  lemma {:induction false} AllHoldStays(hash: string -> string, base: nat, parts: seq<Part>, ops: seq<Option<Pod>>,
                                        n: nat, before: seq<Container>, after: seq<Container>)
    requires AllAccepted(parts, ops, n) && AllHold(hash, base, parts, ops, n, before) && before <= after
    ensures AllHold(hash, base, parts, ops, n, after)
  {
    forall j | 0 <= j < n && parts[j].role.enabled
      ensures Holds(hash, after, base + Added(parts, ops, j), parts[j], ops[j].value)
    {
      HoldsStays(hash, before, base + Added(parts, ops, j), parts[j], ops[j].value, after);
    }
  }

  lemma {:induction false} AllHoldGrows(hash: string -> string, base: nat, parts: seq<Part>, ops: seq<Option<Pod>>,
                                        n: nat, inits: seq<Container>)
    requires n < |parts| && AllAccepted(parts, ops, n + 1) && AllHold(hash, base, parts, ops, n, inits)
    requires parts[n].role.enabled ==> Holds(hash, inits, base + Added(parts, ops, n), parts[n], ops[n].value)
    ensures AllHold(hash, base, parts, ops, n + 1, inits)
  {
    forall j | 0 <= j < n + 1 && parts[j].role.enabled
      ensures Holds(hash, inits, base + Added(parts, ops, j), parts[j], ops[j].value)
    {
    }
  }

  /** One more part. */
  lemma {:induction false} BuiltGrows(hash: string -> string, base: seq<Container>, parts: seq<Part>,
                                      ops: seq<Option<Pod>>, n: nat, before: seq<Container>, after: seq<Container>)
    requires n < |parts| && AllAccepted(parts, ops, n + 1) && Built(hash, base, parts, ops, n, before)
    requires after == before + if parts[n].role.enabled then Composition(hash, parts[n].role.name, ops[n].value) else []
    ensures Built(hash, base, parts, ops, n + 1, after)
  {
    assert after[..|base|] == before[..|base|];
    if parts[n].role.enabled {
      JoinHolds(hash, before, parts[n], ops[n].value, after);
    }
    AllHoldStays(hash, |base|, parts, ops, n, before, after);
    AllHoldGrows(hash, |base|, parts, ops, n, after);
  }

  lemma {:induction false} HoldsStays(hash: string -> string, before: seq<Container>, start: nat, part: Part, op: Pod,
                                      after: seq<Container>)
    requires PartShaped(part, op) && Holds(hash, before, start, part, op) && before <= after
    ensures Holds(hash, after, start, part, op)
  {
    var end := start + |op.initContainers| + 1;
    assert after[start..end] == before[start..end];
  }

  lemma {:induction false} JoinHolds(hash: string -> string, before: seq<Container>, part: Part, op: Pod,
                                     after: seq<Container>)
    requires PartShaped(part, op) && after == before + Composition(hash, part.role.name, op)
    ensures |after| == |before| + |op.initContainers| + 1 && Holds(hash, after, |before|, part, op)
  {
    assert after[|before|..|after|] == Composition(hash, part.role.name, op);
  }

  /**
   A composed palette has all parts accepted, keeps the base's containers and holds those of every switched-on part,
   in palette order, under their scoped names.
   */
  lemma {:induction false} JoinAllBuilds(hash: string -> string, base: Template, parts: seq<Part>,
                                         ops: seq<Option<Pod>>, n: nat)
    requires n <= |parts| && Shaped(parts, ops) && JoinAll(hash, base, parts, ops, n).Some?
    ensures AllAccepted(parts, ops, n)
    ensures var composed := JoinAll(hash, base, parts, ops, n).value;
            composed.pod.containers == base.pod.containers
            && Built(hash, base.pod.initContainers, parts, ops, n, composed.pod.initContainers)
    decreases n
  {
    if n > 0 {
      JoinAllBuilds(hash, base, parts, ops, n - 1);
      var before := JoinAll(hash, base, parts, ops, n - 1).value.pod.initContainers;
      BuiltGrows(hash, base.pod.initContainers, parts, ops, n - 1, before,
                 JoinAll(hash, base, parts, ops, n).value.pod.initContainers);
    }
  }

  /** Composing fails only where a part is refused. */
  lemma {:induction false} JoinAllSucceeds(hash: string -> string, base: Template, parts: seq<Part>,
                                           ops: seq<Option<Pod>>, n: nat)
    requires AllAccepted(parts, ops, n)
    ensures JoinAll(hash, base, parts, ops, n).Some?
    decreases n
  {
    if n > 0 {
      JoinAllSucceeds(hash, base, parts, ops, n - 1);
    }
  }

  // ---- Capturing ----------------------------------------------------------------------------------

  ghost function Managed(): Container -> bool {
    (c: Container) => IsManaged(c.name)
  }

  lemma {:induction false} CapturedIsFilter(inits: seq<Container>)
    ensures IsFilter(inits, Managed(), Captured(inits))
    decreases |inits|
  {
    if inits != [] {
      var n := |inits| - 1;
      CapturedIsFilter(inits[..n]);
      FilterGrows(inits[..n], Managed(), Captured(inits[..n]), inits[n]);
      assert inits == inits[..n] + [inits[n]];
    }
  }

  /** The captured containers are those whose names are captured. */
  lemma {:induction false} CapturedIsSelect(inits: seq<Container>, names: set<string>)
    requires forall i :: 0 <= i < |inits| ==> (inits[i].name in names <==> IsManaged(inits[i].name))
    ensures Captured(inits) == Select(inits, names, true)
    decreases |inits|
  {
    if inits != [] {
      var n := |inits| - 1;
      CapturedIsSelect(inits[..n], names);
      assert inits == inits[..n] + [inits[n]];
      SelectConcat(inits[..n], [inits[n]], names, true);
      assert Select([inits[n]], names, true) == if IsManaged(inits[n].name) then [inits[n]] else [];
    }
  }

  lemma CapturedNames(inits: seq<Container>)
    ensures forall i :: 0 <= i < |inits| ==> (inits[i].name in Names(Captured(inits)) <==> IsManaged(inits[i].name))
    ensures forall j :: 0 <= j < |Captured(inits)| ==> IsManaged(Captured(inits)[j].name)
  {
    CapturedIsFilter(inits);
    forall j | 0 <= j < |Captured(inits)| ensures IsManaged(Captured(inits)[j].name) {
      FilterHoldsChosen(inits, Managed(), Captured(inits), j);
    }
    forall i | 0 <= i < |inits| && IsManaged(inits[i].name) ensures inits[i].name in Names(Captured(inits)) {
      assert Managed()(inits[i]);
      assert Captured(inits)[Count(inits[..i], Managed())] == inits[i];
    }
  }

  // ---- Rendering without patches --------------------------------------------------------------------

  predicate NamesDiffer(cs: seq<Container>) {
    forall i, j :: 0 <= i < j < |cs| ==> cs[i].name != cs[j].name
  }

  /** Containers with different names are restored to themselves. */
  lemma RestoringUnpatched(inits: seq<Container>)
    requires NamesDiffer(Captured(inits))
    ensures Restored(inits, Captured(inits)) == inits
  {
    var captured := Captured(inits);
    var names := Names(captured);
    CapturedNames(inits);
    CapturedIsSelect(inits, names);
    CapturedIsFilter(inits);
    forall j | 0 <= j < |captured| ensures Refreshed(inits, captured[j]) == captured[j] {
      FilterHoldsChosen(inits, Managed(), captured, j);
      var i :| 0 <= i < |inits| && Managed()(inits[i]) && Count(inits[..i], Managed()) == j && captured[j] == inits[i];
      OnlyOneOfTheName(inits, i);
      LastIsAtLastPlace(inits, inits[i].name, i);
    }
    assert RefreshedAll(inits, captured) == captured;
    SelectNonempty(inits, names);
    if AnyManaged(inits, names) {
      SplicedSelf(inits, names);
    }
  }

  lemma OnlyOneOfTheName(inits: seq<Container>, i: nat)
    requires i < |inits| && IsManaged(inits[i].name) && NamesDiffer(Captured(inits))
    ensures IsLastPlace(inits, inits[i].name, i)
  {
    CapturedIsFilter(inits);
    forall j | i < j < |inits| ensures inits[j].name != inits[i].name {
      if inits[j].name == inits[i].name {
        CountGrows(inits, Managed(), i, j);
      }
    }
  }

  /** Names that differ after restoring differed when they were captured. */
  lemma CapturedNamesDiffer(inits: seq<Container>, captured: seq<Container>)
    requires NamesDiffer(Restored(inits, captured))
    ensures NamesDiffer(captured)
  {
    var names, restored := Names(captured), Restored(inits, captured);
    CapturedComeBack(inits, captured);
    SelectIsFilter(restored, names, true);
    var back := Select(restored, names, true);
    forall i, j | 0 <= i < j < |captured| ensures captured[i].name != captured[j].name {
      FilterHoldsChosen(restored, Inside(names, true), back, i);
      FilterHoldsChosen(restored, Inside(names, true), back, j);
      assert back[i].name == captured[i].name && back[j].name == captured[j].name;
    }
  }

  lemma SameTwice(p: Pod, q: Pod, r: Pod)
    requires SameButPorts(p, q) && SameButPorts(q, r)
    ensures SameButPorts(p, r)
  {
  }

  /** Configuring listeners touches ports only. */
  lemma {:induction false} ConfigureOneTouchesPorts(hash: string -> string, pod: Pod, sidecar: Role)
    requires ConfigureOne(hash, pod, sidecar).Some?
    ensures SameButPorts(pod, ConfigureOne(hash, pod, sidecar).value)
  {
    if sidecar.enabled {
      ConfiguringTouchesPortsOnly(hash, pod, sidecar, true, ConfigureOne(hash, pod, sidecar).value);
    }
  }

  lemma {:induction false} ConfigureSidecarsTouchesPorts(hash: string -> string, pod: Pod, sidecars: seq<Role>, n: nat)
    requires n <= |sidecars| && ConfigureSidecars(hash, pod, sidecars, n).Some?
    ensures SameButPorts(pod, ConfigureSidecars(hash, pod, sidecars, n).value)
    decreases n
  {
    if n > 0 {
      ConfigureSidecarsTouchesPorts(hash, pod, sidecars, n - 1);
      var before := ConfigureSidecars(hash, pod, sidecars, n - 1).value;
      ConfigureOneTouchesPorts(hash, before, sidecars[n - 1]);
      SameTwice(pod, before, ConfigureSidecars(hash, pod, sidecars, n).value);
    }
  }

  lemma {:induction false} FinishedTouchesPorts(hash: string -> string, pod: Pod, role: Role, sidecars: seq<Role>,
                                                dataplane: bool)
    requires Finished(hash, pod, role, sidecars, dataplane).Some?
    ensures SameButPorts(pod, Finished(hash, pod, role, sidecars, dataplane).value)
  {
    var first := Configure(hash, pod, role, false).value;
    ConfiguringTouchesPortsOnly(hash, pod, role, false, first);
    ConfigureSidecarsTouchesPorts(hash, first, sidecars, |sidecars|);
    SameTwice(pod, first, Finished(hash, pod, role, sidecars, dataplane).value);
  }

  /** The part's own container has its listeners in place already. */
  ghost predicate Settled(hash: string -> string, part: Part, op: Pod) {
    && PartShaped(part, op) && part.role.kind.Sidecar?
    && (ListenersOf(part.role) != [] ==>
          NewPorts(hash, part.role, op.containers[0].ports) == op.containers[0].ports)
  }

  lemma {:induction false} AcceptedIsSettled(hash: string -> string, part: Part, op: Pod)
    requires Accepted(hash, part, op) && part.role.kind.Sidecar?
    ensures Settled(hash, part, op)
  {
    if ListenersOf(part.role) != [] {
      var i: nat :| Configurable(hash, part.pod, part.role, false, i)
          && op == SetPorts(part.pod, i, NewPorts(hash, part.role, All(part.pod)[i].ports));
      assert All(part.pod)[0] == part.pod.containers[0] && i == 0;
      ConfiguredPortsStay(hash, part.role, part.pod.containers[0].ports);
      assert All(op)[0] == op.containers[0];
    }
  }

  ghost predicate AllSettled(hash: string -> string, parts: seq<Part>, ops: seq<Option<Pod>>) {
    AllAccepted(parts, ops, |parts|) && forall j :: 0 <= j < |parts| ==> Settled(hash, parts[j], ops[j].value)
  }

  lemma {:induction false} AcceptedAreSettled(hash: string -> string, parts: seq<Part>)
    requires AllAccepted(parts, AcceptedPods(hash, parts), |parts|)
    requires forall j :: 0 <= j < |parts| ==> parts[j].role.kind.Sidecar?
    ensures AllSettled(hash, parts, AcceptedPods(hash, parts))
  {
    forall j | 0 <= j < |parts| ensures Settled(hash, parts[j], AcceptedPods(hash, parts)[j].value) {
      AcceptedIsSettled(hash, parts[j], AcceptedPod(hash, parts[j]).value);
    }
  }

  /** The Pod holds a container of the sidecar's scoped name, with its ports in place. */
  ghost predicate InPlace(hash: string -> string, pod: Pod, role: Role) {
    exists i :: 0 <= i < |All(pod)| && All(pod)[i].name == ScopedContainer(hash, role)
                && (ListenersOf(role) != [] ==> NewPorts(hash, role, All(pod)[i].ports) == All(pod)[i].ports)
  }

  ghost predicate AllInPlace(hash: string -> string, pod: Pod, sidecars: seq<Role>) {
    forall j :: 0 <= j < |sidecars| ==>
      sidecars[j].kind.Sidecar? && (sidecars[j].enabled ==> InPlace(hash, pod, sidecars[j]))
  }

  lemma {:induction false} ConfigureInPlace(hash: string -> string, pod: Pod, role: Role)
    requires role.kind.Sidecar? && InPlace(hash, pod, role) && Configure(hash, pod, role, true).Some?
    ensures Configure(hash, pod, role, true) == Some(pod)
  {
    if ListenersOf(role) != [] {
      var after := Configure(hash, pod, role, true).value;
      var i: nat :| Configurable(hash, pod, role, true, i)
          && after == SetPorts(pod, i, NewPorts(hash, role, All(pod)[i].ports));
      var k :| 0 <= k < |All(pod)| && All(pod)[k].name == ScopedContainer(hash, role)
               && NewPorts(hash, role, All(pod)[k].ports) == All(pod)[k].ports;
      assert i == k;
      SetSamePorts(pod, i);
    }
  }

  lemma SetSamePorts(pod: Pod, i: nat)
    requires i < |All(pod)|
    ensures SetPorts(pod, i, All(pod)[i].ports) == pod
  {
  }

  lemma {:induction false} ConfigureOneInPlace(hash: string -> string, pod: Pod, role: Role)
    requires role.kind.Sidecar? && (role.enabled ==> InPlace(hash, pod, role)) && ConfigureOne(hash, pod, role).Some?
    ensures ConfigureOne(hash, pod, role) == Some(pod)
  {
    if role.enabled {
      ConfigureInPlace(hash, pod, role);
    }
  }

  lemma {:induction false} ConfigureStep(hash: string -> string, pod: Pod, sidecars: seq<Role>, n: nat)
    requires n < |sidecars| && ConfigureSidecars(hash, pod, sidecars, n) == Some(pod)
    ensures ConfigureSidecars(hash, pod, sidecars, n + 1) == ConfigureOne(hash, pod, sidecars[n])
  {
  }

  lemma {:induction false} ConfigureSidecarsInPlace(hash: string -> string, pod: Pod, sidecars: seq<Role>, n: nat)
    requires n <= |sidecars| && AllInPlace(hash, pod, sidecars) && ConfigureSidecars(hash, pod, sidecars, n).Some?
    ensures ConfigureSidecars(hash, pod, sidecars, n) == Some(pod)
    decreases n
  {
    if n > 0 {
      ConfigureSidecarsInPlace(hash, pod, sidecars, n - 1);
      ConfigureStep(hash, pod, sidecars, n - 1);
      ConfigureOneInPlace(hash, pod, sidecars[n - 1]);
    }
  }

  lemma {:induction false} BuiltIsInPlace(hash: string -> string, base: seq<Container>, parts: seq<Part>,
                                          ops: seq<Option<Pod>>, pod: Pod)
    requires AllSettled(hash, parts, ops) && Built(hash, base, parts, ops, |parts|, pod.initContainers)
    ensures AllInPlace(hash, pod, RolesOf(parts))
  {
    forall j | 0 <= j < |parts| && parts[j].role.enabled ensures InPlace(hash, pod, parts[j].role) {
      PartIsInPlace(hash, pod, |base| + Added(parts, ops, j), parts[j], ops[j].value);
    }
  }

  lemma {:induction false} PartIsInPlace(hash: string -> string, pod: Pod, start: nat, part: Part, op: Pod)
    requires Settled(hash, part, op) && Holds(hash, pod.initContainers, start, part, op)
    ensures InPlace(hash, pod, part.role)
  {
    var k, n := start + |op.initContainers|, |pod.containers|;
    assert pod.initContainers[start..k + 1][|op.initContainers|] == pod.initContainers[k];
    assert All(pod)[n + k] == pod.initContainers[k];
  }

  lemma IdentityOfItself(t: Template)
    requires var inits := t.pod.initContainers; IsDataplane(t.labels) ==> Restored(inits, Captured(inits)) == inits
    ensures WithIdentity(t, IdentityOf(t)) == t
  {
    assert MergeIdentityLabels(t.labels, ReservedLabels(t.labels)) == t.labels;
  }

  lemma NamesDifferInside(p: Pod, q: Pod)
    requires NamesUnique(q) && SameButPorts(p, q)
    ensures NamesDiffer(p.initContainers)
  {
    UniqueByIndex(q);
    forall i, j | 0 <= i < j < |p.initContainers| ensures p.initContainers[i].name != p.initContainers[j].name {
      var n := |p.containers|;
      assert All(p)[n + i] == p.initContainers[i] && All(p)[n + j] == p.initContainers[j];
      assert All(q)[n + i].name != All(q)[n + j].name;
    }
  }

  /** The template composed from the palette. */
  ghost function ComposedFrom(hash: string -> string, base: Template, parts: seq<Part>): Option<Template> {
    JoinAll(hash, base, parts, AcceptedPods(hash, parts), |parts|)
  }

  /**
   Without patches a rendering that succeeds is the composed template itself: the base, and for every switched-on part
   in palette order its initializers and itself, with the content and ports of its accepted Pod.
   */
  lemma {:induction false} UnpatchedRendering(hash: string -> string, base: Template, role: Role, parts: seq<Part>,
                                              patch: Template -> Option<Template>)
    requires role.kind.Dataplane? && IsDataplane(base.labels) && IsHash(hash)
    requires forall j :: 0 <= j < |parts| ==> parts[j].role.kind.Sidecar?
    requires var composed := ComposedFrom(hash, base, parts); composed.Some? ==> patch(composed.value) == composed
    requires Rendered(hash, base, role, parts, patch).Some? && NativeNames(base.pod.initContainers) == []
    ensures Rendered(hash, base, role, parts, patch) == ComposedFrom(hash, base, parts)
    ensures AllAccepted(parts, AcceptedPods(hash, parts), |parts|)
    ensures var r := Rendered(hash, base, role, parts, patch).value;
            r.pod.containers == base.pod.containers
            && Built(hash, base.pod.initContainers, parts, AcceptedPods(hash, parts), |parts|, r.pod.initContainers)
  {
    var composed := ComposedFrom(hash, base, parts).value;
    JoinAllBuilds(hash, base, parts, AcceptedPods(hash, parts), |parts|);
    PaletteIsComposed(hash, base, parts, AcceptedPods(hash, parts));
    UnpatchedIsComposed(hash, composed, role, parts, Rendered(hash, base, role, parts, patch).value.pod);
    AcceptedAreSettled(hash, parts);
    BuiltIsInPlace(hash, base.pod.initContainers, parts, AcceptedPods(hash, parts), composed.pod);
    ConfigureSidecarsInPlace(hash, composed.pod, RolesOf(parts), |parts|);
  }

  lemma {:induction false} UnpatchedIsComposed(hash: string -> string, composed: Template, role: Role, parts: seq<Part>,
                                               last: Pod)
    requires IsDataplane(composed.labels)
    requires var restored := WithIdentity(composed, IdentityOf(composed));
             Finished(hash, restored.pod, role, RolesOf(parts), true) == Some(last)
    ensures WithIdentity(composed, IdentityOf(composed)) == composed
  {
    var restored := WithIdentity(composed, IdentityOf(composed));
    var inits := composed.pod.initContainers;
    FinishedTouchesPorts(hash, restored.pod, role, RolesOf(parts), true);
    NamesDifferInside(restored.pod, last);
    CapturedNamesDiffer(inits, Captured(inits));
    RestoringUnpatched(inits);
    IdentityOfItself(composed);
  }

  // ---- Rendering with patches ------------------------------------------------------------------------

  /** Lists that agree in everything but ports. */
  ghost predicate AgreeButPorts(a: seq<Container>, b: seq<Container>) {
    |a| == |b| && forall i :: 0 <= i < |a| ==> a[i].(ports := []) == b[i].(ports := [])
  }

  lemma {:induction false} SelectAgrees(a: seq<Container>, b: seq<Container>, names: set<string>, inside: bool)
    requires AgreeButPorts(a, b)
    ensures AgreeButPorts(Select(a, names, inside), Select(b, names, inside))
    decreases |a|
  {
    if a != [] {
      assert a[0].(ports := []) == b[0].(ports := []);
      SelectAgrees(a[1..], b[1..], names, inside);
    }
  }

  lemma PodsAgree(p: Pod, q: Pod)
    requires SameButPorts(p, q)
    ensures AgreeButPorts(p.containers, q.containers) && AgreeButPorts(p.initContainers, q.initContainers)
  {
    forall i | 0 <= i < |p.containers| ensures p.containers[i].(ports := []) == q.containers[i].(ports := []) {
      assert All(p)[i] == p.containers[i] && All(q)[i] == q.containers[i];
    }
    forall i | 0 <= i < |p.initContainers|
      ensures p.initContainers[i].(ports := []) == q.initContainers[i].(ports := [])
    {
      var n := |p.containers|;
      assert All(p)[n + i] == p.initContainers[i] && All(q)[n + i] == q.initContainers[i];
    }
  }

  /** The captured container with the content of the last patched container of its name, or with its own. */
  ghost predicate KeepsContent(c: Container, captured: Container, patched: seq<Container>) {
    && c.name == captured.name && c.restartPolicy == captured.restartPolicy
    && (forall k: nat :: IsLastPlace(patched, captured.name, k) ==> c.rest == patched[k].rest)
    && ((forall k :: 0 <= k < |patched| ==> patched[k].name != captured.name) ==> c.rest == captured.rest)
  }

  /**
   Whatever the patches do, a dataplane that renders has all managed containers of the composed template, one-shot
   initializers included, in their order and under their policies, with the content the patches gave them. Every other
   container is the patched one, apart from ports.
   */
  lemma {:induction false} PatchesChangeContentOnly(hash: string -> string, base: Template, role: Role,
                                                    parts: seq<Part>, patch: Template -> Option<Template>)
    requires IsHash(hash) && IsDataplane(base.labels) && NativeNames(base.pod.initContainers) == []
    requires Rendered(hash, base, role, parts, patch).Some?
    ensures ComposedFrom(hash, base, parts).Some? && patch(ComposedFrom(hash, base, parts).value).Some?
    ensures var composed := ComposedFrom(hash, base, parts).value;
            var patched, r := patch(composed).value.pod, Rendered(hash, base, role, parts, patch).value.pod;
            var captured := Captured(composed.pod.initContainers);
            var back := Select(r.initContainers, Names(captured), true);
            && AgreeButPorts(patched.containers, r.containers)
            && |back| == |captured|
            && (forall j :: 0 <= j < |back| ==> KeepsContent(back[j], captured[j], patched.initContainers))
            && AgreeButPorts(Select(patched.initContainers, Names(captured), false),
                             Select(r.initContainers, Names(captured), false))
  {
    var composed := ComposedFrom(hash, base, parts).value;
    PaletteIsComposed(hash, base, parts, AcceptedPods(hash, parts));
    ContentAfter(hash, composed, patch(composed).value, role, RolesOf(parts),
                 Rendered(hash, base, role, parts, patch).value.pod);
  }

  lemma {:induction false} ContentAfter(hash: string -> string, composed: Template, patched: Template, role: Role,
                                        sidecars: seq<Role>, last: Pod)
    requires IsDataplane(composed.labels)
    requires Finished(hash, WithIdentity(patched, IdentityOf(composed)).pod, role, sidecars, true) == Some(last)
    ensures var captured := Captured(composed.pod.initContainers);
            var back := Select(last.initContainers, Names(captured), true);
            && AgreeButPorts(patched.pod.containers, last.containers)
            && |back| == |captured|
            && (forall j :: 0 <= j < |back| ==> KeepsContent(back[j], captured[j], patched.pod.initContainers))
            && AgreeButPorts(Select(patched.pod.initContainers, Names(captured), false),
                             Select(last.initContainers, Names(captured), false))
  {
    var captured, inits := Captured(composed.pod.initContainers), patched.pod.initContainers;
    var restored := WithIdentity(patched, IdentityOf(composed)).pod;
    FinishedTouchesPorts(hash, restored, role, sidecars, true);
    PodsAgree(restored, last);
    SelectAgrees(restored.initContainers, last.initContainers, Names(captured), true);
    SelectAgrees(restored.initContainers, last.initContainers, Names(captured), false);
    CapturedComeBack(inits, captured);
    var back := Select(last.initContainers, Names(captured), true);
    forall j | 0 <= j < |back| ensures KeepsContent(back[j], captured[j], inits) {
      RestoredContent(inits, captured, j);
      var mine := Select(Restored(inits, captured), Names(captured), true)[j];
      assert back[j].(ports := []) == mine.(ports := []);
    }
  }
}
