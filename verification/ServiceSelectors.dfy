/**
 Shared Services and the Pods they select (internal/manifests/service.go, builder.go).
 */
module ServiceSelectors {
  import opened Roles
  import opened Listeners
  import opened Identity
  import opened Rendering
  import opened Strings
  import Cluster

  datatype Context = Context(yanet: string, node: string, boxType: string)

  /** A rendered workload: its role, the NUMA index of a controlplane, the palette of a dataplane. */
  datatype Workload = Workload(context: Context, role: Role, numa: nat, sidecars: seq<Role>)

  function WorkloadLabels(ctx: Context, component: string): map<string, string> {
    map[LABEL_YANET := ctx.yanet, LABEL_COMPONENT := component, LABEL_APP := component]
    + (if ctx.node == "" then map[] else map[LABEL_NODE := ctx.node])
    + (if ctx.boxType == "" then map[] else map[LABEL_BOX_TYPE := ctx.boxType])
  }

  /** Pod labels before patches: a controlplane adds its NUMA index, a dataplane its sidecars. */
  function RenderedLabels(hash: string -> string, w: Workload): map<string, string> {
    var labels := WorkloadLabels(w.context, w.role.name);
    match w.role.kind
    case Controlplane => labels[LABEL_NUMA := Decimal(w.numa)]
    case Dataplane => ComposedLabels(hash, labels, w.sidecars)
    case _ => labels
  }

  function Selector(hash: string -> string, boxType: string, role: Role, numa: nat): map<string, string> {
    var selector := map[LABEL_BOX_TYPE := boxType, LABEL_COMPONENT := role.name];
    match role.kind
    case Sidecar => selector[LABEL_COMPONENT := "dataplane"][MembershipLabel(hash, role.name) := role.name]
    case Controlplane => selector[LABEL_NUMA := Decimal(numa)]
    case _ => selector
  }

  // ---- Declared roles ---------------------------------------------------------------------------

  /** The role is an entry of the configuration, switched on or off as may be. */
  ghost predicate Declared(palette: seq<Role>, role: Role) {
    exists i :: 0 <= i < |palette| && palette[i].(enabled := role.enabled) == role
  }

  /** Admission lets no two roles share a name. */
  ghost predicate NamesDistinct(palette: seq<Role>) {
    forall i, j :: 0 <= i < j < |palette| ==> palette[i].name != palette[j].name
  }

  /** The same entry. */
  predicate SameRole(a: Role, b: Role) {
    a.(enabled := b.enabled) == b
  }

  lemma NameTellsRole(palette: seq<Role>, a: Role, b: Role)
    requires NamesDistinct(palette) && Declared(palette, a) && Declared(palette, b)
    ensures a.name == b.name <==> SameRole(a, b)
  {
    var i :| 0 <= i < |palette| && palette[i].(enabled := a.enabled) == a;
    var j :| 0 <= j < |palette| && palette[j].(enabled := b.enabled) == b;
    assert a.name == palette[i].name && b.name == palette[j].name;
    if i < j {
      assert palette[i].name != palette[j].name;
    } else if j < i {
      assert palette[j].name != palette[i].name;
    }
  }

  /** The workload runs that very role: as its component, or as a switched-on sidecar of a dataplane. */
  ghost predicate RunsRole(w: Workload, role: Role, numa: nat) {
    match role.kind
    case Sidecar => w.role.kind.Dataplane? && RunsSidecar(w, role)
    case Controlplane => SameRole(w.role, role) && w.numa == numa
    case _ => SameRole(w.role, role)
  }

  ghost predicate RunsSidecar(w: Workload, role: Role) {
    exists i :: 0 <= i < |w.sidecars| && w.sidecars[i].enabled && SameRole(w.sidecars[i], role)
  }

  /** Everything in the workload is declared. */
  ghost predicate WorkloadDeclared(palette: seq<Role>, w: Workload) {
    && NamesDistinct(palette) && Declared(palette, w.role)
    && forall i :: 0 <= i < |w.sidecars| ==> Declared(palette, w.sidecars[i])
  }

  // ---- Membership labels ------------------------------------------------------------------------

  /** Labels other than memberships are written elsewhere. */
  lemma {:induction false} PlainLabelsAreNotMemberships(hash: string -> string, name: string)
    ensures MembershipLabel(hash, name) !in {LABEL_YANET, LABEL_BOX_TYPE, LABEL_COMPONENT, LABEL_NUMA, LABEL_NODE,
                                             LABEL_APP}
    ensures IsReserved(MembershipLabel(hash, name))
  {
    var key := MembershipLabel(hash, name);
    assert key[..33] == OPERATOR_MEMBERSHIP_PREFIX;
    assert key[24] == 'o' && LABEL_YANET[24] == 'y' && LABEL_BOX_TYPE[24] == 'b' && LABEL_COMPONENT[24] == 'c';
    assert LABEL_NUMA[25] == 'u' && LABEL_NODE[24] == 'n' && LABEL_NUMA[24] == 'n' && |LABEL_APP| == 3;
  }

  /** A membership label holds a role's full name exactly when that role is switched on. */
  lemma {:induction false} MembershipTellsRole(hash: string -> string, labels: map<string, string>, sidecars: seq<Role>,
                                               name: string)
    requires forall i, j :: 0 <= i < j < |sidecars| ==> hash(sidecars[i].name) != hash(sidecars[j].name)
    requires MembershipLabel(hash, name) !in labels
    ensures var all, key := ComposedLabels(hash, labels, sidecars), MembershipLabel(hash, name);
            key in all && all[key] == name
            <==> exists i :: 0 <= i < |sidecars| && sidecars[i].enabled && sidecars[i].name == name
    decreases |sidecars|
  {
    if sidecars != [] {
      var n := |sidecars| - 1;
      var init, last := sidecars[..n], sidecars[n];
      MembershipTellsRole(hash, labels, init, name);
      MembershipsCarry(hash, name, last.name);
      assert (exists i :: 0 <= i < |sidecars| && sidecars[i].enabled && sidecars[i].name == name)
        <==> (last.enabled && last.name == name)
             || (exists i :: 0 <= i < n && init[i].enabled && init[i].name == name) by {
        if i :| 0 <= i < n && init[i].enabled && init[i].name == name {
          assert sidecars[i] == init[i];
        }
        if i :| 0 <= i < |sidecars| && sidecars[i].enabled && sidecars[i].name == name {
          assert i < n ==> init[i] == sidecars[i];
        }
      }
    }
  }

  lemma {:induction false} MembershipsCarry(hash: string -> string, a: string, b: string)
    ensures MembershipLabel(hash, a) == MembershipLabel(hash, b) <==> hash(a) == hash(b)
  {
    assert MembershipLabel(hash, a)[33..] == hash(a) && MembershipLabel(hash, b)[33..] == hash(b);
  }

  lemma {:induction false} ComposingAddsMemberships(hash: string -> string, labels: map<string, string>,
                                                    sidecars: seq<Role>, key: string)
    requires key in {LABEL_YANET, LABEL_BOX_TYPE, LABEL_COMPONENT, LABEL_NUMA, LABEL_NODE, LABEL_APP}
    ensures key in ComposedLabels(hash, labels, sidecars) <==> key in labels
    ensures key in labels ==> ComposedLabels(hash, labels, sidecars)[key] == labels[key]
    decreases |sidecars|
  {
    if sidecars != [] {
      ComposingAddsMemberships(hash, labels, sidecars[..|sidecars| - 1], key);
      PlainLabelsAreNotMemberships(hash, sidecars[|sidecars| - 1].name);
    }
  }

  // ---- Selection --------------------------------------------------------------------------------

  /** The labels Services select by, on a rendered workload. */
  lemma {:induction false} RenderedValues(hash: string -> string, w: Workload)
    requires w.role.kind.Dataplane? ==> w.role.name == "dataplane"
    ensures var l := RenderedLabels(hash, w);
            && (LABEL_BOX_TYPE in l <==> w.context.boxType != "")
            && (LABEL_BOX_TYPE in l ==> l[LABEL_BOX_TYPE] == w.context.boxType)
            && LABEL_COMPONENT in l && l[LABEL_COMPONENT] == w.role.name
            && (LABEL_NUMA in l <==> w.role.kind.Controlplane?)
            && (LABEL_NUMA in l ==> l[LABEL_NUMA] == Decimal(w.numa))
  {
    var labels := WorkloadLabels(w.context, w.role.name);
    assert LABEL_NUMA[24..26] == "nu" && LABEL_NODE[24..26] == "no" && LABEL_NUMA !in labels by {
      assert LABEL_NUMA[24] != LABEL_YANET[24] && LABEL_NUMA[24] != LABEL_COMPONENT[24]
          && LABEL_NUMA[24] != LABEL_BOX_TYPE[24];
    }
    assert LABEL_BOX_TYPE[24] == 'b' && LABEL_COMPONENT[24] == 'c' && LABEL_YANET[24] == 'y' && LABEL_NODE[24] == 'n';
    if w.role.kind.Dataplane? {
      ComposingAddsMemberships(hash, labels, w.sidecars, LABEL_BOX_TYPE);
      ComposingAddsMemberships(hash, labels, w.sidecars, LABEL_COMPONENT);
      ComposingAddsMemberships(hash, labels, w.sidecars, LABEL_NUMA);
    }
  }

  /** The labels that say whose workload it is and where it runs. */
  lemma {:induction false} RenderedOwner(hash: string -> string, w: Workload)
    ensures var l := RenderedLabels(hash, w);
            && LABEL_YANET in l && l[LABEL_YANET] == w.context.yanet && LABEL_APP in l && l[LABEL_APP] == w.role.name
            && (LABEL_NODE in l <==> w.context.node != "") && (LABEL_NODE in l ==> l[LABEL_NODE] == w.context.node)
  {
    var labels := WorkloadLabels(w.context, w.role.name);
    assert LABEL_BOX_TYPE[24] == 'b' && LABEL_COMPONENT[24] == 'c' && LABEL_YANET[24] == 'y';
    assert LABEL_NODE[24..26] == "no" && LABEL_NUMA[24..26] == "nu" && |LABEL_APP| == 3;
    if w.role.kind.Dataplane? {
      ComposingAddsMemberships(hash, labels, w.sidecars, LABEL_YANET);
      ComposingAddsMemberships(hash, labels, w.sidecars, LABEL_APP);
      ComposingAddsMemberships(hash, labels, w.sidecars, LABEL_NODE);
    }
  }

  /** The membership label of a role, on a rendered workload. */
  lemma {:induction false} RenderedMembership(hash: string -> string, w: Workload, name: string)
    requires SidecarsLegal(hash, w.sidecars)
    ensures var l, key := RenderedLabels(hash, w), MembershipLabel(hash, name);
            key in l && l[key] == name
            <==> w.role.kind.Dataplane?
                 && exists i :: 0 <= i < |w.sidecars| && w.sidecars[i].enabled && w.sidecars[i].name == name
  {
    PlainLabelsAreNotMemberships(hash, name);
    MembershipTellsRole(hash, WorkloadLabels(w.context, w.role.name), w.sidecars, name);
  }

  /** Whatever patches did, restoring the workload's identity leaves the same Services selecting it. */
  lemma {:induction false} PatchesDoNotReselect(hash: string -> string, boxType: string, role: Role, numa: nat,
                                                rendered: Template, patched: Template)
    ensures var restored := WithIdentity(patched, IdentityOf(rendered));
            Cluster.Matches(Selector(hash, boxType, role, numa), restored.labels)
            <==> Cluster.Matches(Selector(hash, boxType, role, numa), rendered.labels)
  {
    IdentitySurvivesPatches(rendered, patched);
    ReservedLabelsTell(hash, boxType, role, numa, rendered.labels, WithIdentity(patched, IdentityOf(rendered)).labels);
  }

  /** A selector asks for reserved labels only. */
  lemma {:induction false} ReservedLabelsTell(hash: string -> string, boxType: string, role: Role, numa: nat,
                                              rendered: map<string, string>, labels: map<string, string>)
    requires ReservedLabels(labels) == ReservedLabels(rendered)
    ensures Cluster.Matches(Selector(hash, boxType, role, numa), labels)
            <==> Cluster.Matches(Selector(hash, boxType, role, numa), rendered)
  {
    PlainLabelsAreNotMemberships(hash, role.name);
    forall key | key in Selector(hash, boxType, role, numa)
      ensures (key in labels <==> key in rendered) && (key in labels ==> labels[key] == rendered[key])
    {
      assert key in labels <==> key in ReservedLabels(labels);
      assert key in rendered <==> key in ReservedLabels(rendered);
    }
  }

  /**
   A shared Service selects a workload exactly when both belong to its box type and the workload runs its role,
   whatever patches did to the Pod's labels.
   */
  lemma {:induction false} ServiceSelectsItsRole(hash: string -> string, palette: seq<Role>, boxType: string,
                                                 role: Role, numa: nat, w: Workload, labels: map<string, string>)
    requires !role.kind.Dataplane? && SidecarsLegal(hash, w.sidecars)
    requires WorkloadDeclared(palette, w) && Declared(palette, role)
    requires w.role.kind.Dataplane? ==> w.role.name == "dataplane"
    requires ReservedLabels(labels) == ReservedLabels(RenderedLabels(hash, w))
    ensures Cluster.Matches(Selector(hash, boxType, role, numa), labels)
       <==> boxType != "" && w.context.boxType == boxType && RunsRole(w, role, numa)
  {
    var selector, l := Selector(hash, boxType, role, numa), RenderedLabels(hash, w);
    ReservedLabelsTell(hash, boxType, role, numa, l, labels);
    RenderedValues(hash, w);
    SelectorValues(hash, boxType, role, numa, l);
    NameTellsRole(palette, w.role, role);
    match role.kind {
      case Sidecar =>
        RenderedMembership(hash, w, role.name);
        SidecarByName(palette, w, role);
      case Controlplane =>
        if w.role.kind.Controlplane? && Decimal(w.numa) == Decimal(numa) {
          DecimalIsInjective(w.numa, numa);
        }
      case _ =>
    }
  }

  lemma SidecarByName(palette: seq<Role>, w: Workload, role: Role)
    requires WorkloadDeclared(palette, w) && Declared(palette, role)
    ensures RunsSidecar(w, role) <==>
              exists i :: 0 <= i < |w.sidecars| && w.sidecars[i].enabled && w.sidecars[i].name == role.name
  {
    forall i | 0 <= i < |w.sidecars| ensures w.sidecars[i].name == role.name <==> SameRole(w.sidecars[i], role) {
      NameTellsRole(palette, w.sidecars[i], role);
    }
  }

  predicate Has(labels: map<string, string>, key: string, value: string) {
    key in labels && labels[key] == value
  }

  /** What a selector asks for, label by label. */
  lemma {:induction false} SelectorValues(hash: string -> string, boxType: string, role: Role, numa: nat,
                                          l: map<string, string>)
    ensures Cluster.Matches(Selector(hash, boxType, role, numa), l)
       <==> Has(l, LABEL_BOX_TYPE, boxType)
            && Has(l, LABEL_COMPONENT, if role.kind.Sidecar? then "dataplane" else role.name)
            && (role.kind.Sidecar? ==> Has(l, MembershipLabel(hash, role.name), role.name))
            && (role.kind.Controlplane? ==> Has(l, LABEL_NUMA, Decimal(numa)))
  {
    PlainLabelsAreNotMemberships(hash, role.name);
    var s, key := Selector(hash, boxType, role, numa), MembershipLabel(hash, role.name);
    assert LABEL_BOX_TYPE[24] == 'b' && LABEL_COMPONENT[24] == 'c' && LABEL_NUMA[24] == 'n';
    assert s[LABEL_BOX_TYPE] == boxType && s[LABEL_COMPONENT] == if role.kind.Sidecar? then "dataplane" else role.name;
    assert role.kind.Sidecar? ==> s[key] == role.name;
    assert role.kind.Controlplane? ==> s[LABEL_NUMA] == Decimal(numa);
  }

  lemma {:induction false} ExpectedHolds(hash: string -> string, sidecars: seq<Role>, i: nat)
    requires i < |sidecars| && sidecars[i].enabled
    ensures ScopedContainer(hash, sidecars[i]) in Expected(hash, sidecars)
    decreases |sidecars|
  {
    var n := |sidecars| - 1;
    if i < n {
      ExpectedHolds(hash, sidecars[..n], i);
    }
  }

  /**
   From Service to socket: a rendered dataplane is selected by the Service of a declared sidecar exactly when the
   sidecar is switched on. Then the sidecar's container is one of the native sidecars, and every target port of the
   Service leads to one port, of that container and in the sidecar's slot.
   */
  lemma {:induction false} ServiceReachesSidecar(hash: string -> string, palette: seq<Role>, w: Workload,
                                                 base: Template, r: Template, i: nat)
    requires IsHash(hash) && SidecarsLegal(hash, w.sidecars) && i < |w.sidecars| && WorkloadDeclared(palette, w)
    requires w.role.kind.Dataplane? && w.role.name == "dataplane" && w.context.boxType != ""
    requires base.labels == WorkloadLabels(w.context, "dataplane") && Delivers(hash, base, w.sidecars, r)
    ensures Cluster.Matches(Selector(hash, w.context.boxType, w.sidecars[i], 0), r.labels) <==> w.sidecars[i].enabled
    ensures w.sidecars[i].enabled ==>
              ScopedContainer(hash, w.sidecars[i]) in NativeNames(r.pod.initContainers)
              && forall l :: l in ListenersOf(w.sidecars[i]) ==>
                   LeadsTo(r.pod, TargetPort(hash, w.sidecars[i], l), ScopedContainer(hash, w.sidecars[i]),
                           PortNumber(w.sidecars[i], l))
  {
    var role := w.sidecars[i];
    ServiceSelectsItsRole(hash, palette, w.context.boxType, role, 0, w, r.labels);
    if role.enabled {
      ExpectedHolds(hash, w.sidecars, i);
      assert Wired(hash, r.pod, role, true) && SameRole(role, role);
    } else if j :| 0 <= j < |w.sidecars| && w.sidecars[j].enabled && SameRole(w.sidecars[j], role) {
      assert hash(w.sidecars[j].name) == hash(role.name);
    }
  }

  /**
   The same for operators, the controlplane and the bird adapter: a rendered workload is selected by a Service exactly
   when it has the box type and runs the Service's role, and then every target port of the Service leads to one port
   of the role's own container.
   */
  lemma {:induction false} ServiceReachesStandalone(hash: string -> string, palette: seq<Role>, boxType: string,
                                                    role: Role, numa: nat, w: Workload, base: Template, r: Template)
    requires !role.kind.Dataplane? && !w.role.kind.Dataplane? && !w.role.kind.Sidecar? && w.sidecars == []
    requires WorkloadDeclared(palette, w) && Declared(palette, role)
    requires base.labels == RenderedLabels(hash, w) && DeliversStandalone(hash, base, w.role, r)
    ensures Cluster.Matches(Selector(hash, boxType, role, numa), r.labels)
       <==> boxType != "" && w.context.boxType == boxType && RunsRole(w, role, numa)
    ensures RunsRole(w, role, numa) ==> forall l :: l in ListenersOf(role) ==>
              LeadsTo(r.pod, TargetPort(hash, role, l), ListenerContainer(role), PortNumber(role, l))
  {
    ServiceSelectsItsRole(hash, palette, boxType, role, numa, w, r.labels);
    if RunsRole(w, role, numa) {
      forall l | l in ListenersOf(role)
        ensures LeadsTo(r.pod, TargetPort(hash, role, l), ListenerContainer(role), PortNumber(role, l))
      {
        assert l in ListenersOf(w.role) && TargetPort(hash, w.role, l) == TargetPort(hash, role, l);
        assert PortNumber(w.role, l) == PortNumber(role, l) && OwnerOf(hash, w.role, false) == ListenerContainer(role);
      }
    }
  }
}
