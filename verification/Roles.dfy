/**
 Roles, their names inside a shared Pod and their port slots
 (internal/helpers/resolve.go, internal/manifests/operator_placement.go and listeners.go).
 */
module Roles {
  import opened Options
  import opened Pods
  import PodPorts

  const SERVICE_GRPC_PORT := 8080
  const SERVICE_HTTP_PORT := 8081
  const MAX_DATAPLANE_SIDECARS := (65535 - SERVICE_HTTP_PORT) / 2 + 1
  const OPERATOR_MEMBERSHIP_PREFIX := "yanet.yanet-platform.io/operator-"

  datatype Kind = Controlplane | Dataplane | BirdAdapter | Operator | Sidecar

  datatype Listener = Grpc | Http

  /** A resolved component; only operators carry `containers`, only sidecars a port slot. */
  datatype Role = Role(kind: Kind, name: string, enabled: bool, containers: seq<string>,
                       listeners: Option<seq<Listener>>, portIndex: int)

  /** An unset list means gRPC; the dataplane exposes nothing and the controlplane both. */
  function ListenersOf(role: Role): seq<Listener> {
    match role.kind
    case Dataplane => []
    case Controlplane => [Grpc, Http]
    case _ => if role.listeners.None? then [Grpc] else role.listeners.value
  }

  /** resolveListeners leaves no duplicates. */
  predicate ListenersDistinct(role: Role) {
    forall i, j :: 0 <= i < j < |ListenersOf(role)| ==> ListenersOf(role)[i] != ListenersOf(role)[j]
  }

  function ListenerContainer(role: Role): string {
    match role.kind
    case Dataplane => ""
    case Operator => if role.containers == [] then "" else role.containers[0]
    case Sidecar => role.name
    case Controlplane => "controlplane"
    case BirdAdapter => "bird-adapter"
  }

  // ---- Names --------------------------------------------------------------------------------

  /** The short hash: eight characters, none of them a dash. */
  ghost predicate IsHash(hash: string -> string) {
    forall s :: |hash(s)| == 8 && '-' !in hash(s)
  }

  function TrimRight(s: string): (r: string)
    ensures r <= s
    ensures forall i :: 0 <= i < |s| && s[i] != '-' ==> i < |r|
  {
    if s != [] && s[|s| - 1] == '-' then TrimRight(s[..|s| - 1]) else s
  }

  function ScopedName(hash: string -> string, operator: string, name: string): string {
    var result := "op-" + hash(operator) + "-" + name;
    if |result| > 63 then TrimRight(result[..54]) + "-" + hash(result) else result
  }

  /** The container a sidecar's listeners live in, after composition. */
  function ScopedContainer(hash: string -> string, sidecar: Role): string {
    ScopedName(hash, sidecar.name, sidecar.name)
  }

  function TargetPort(hash: string -> string, role: Role, l: Listener): string {
    if role.kind.Sidecar? then "op-" + hash(role.name) + "-" + (if l.Grpc? then "g" else "h")
    else if l.Grpc? then "grpc" else "http"
  }

  function MembershipLabel(hash: string -> string, operator: string): string {
    OPERATOR_MEMBERSHIP_PREFIX + hash(operator)
  }

  /** A scoped name starts with the role's identity, shortened or not. */
  lemma {:induction false} ScopedNameStarts(hash: string -> string, operator: string, name: string)
    requires IsHash(hash)
    ensures HasPrefix(ScopedName(hash, operator, name), "op-" + hash(operator))
    ensures PodPorts.IsManaged(ScopedName(hash, operator, name))
  {
    var start := "op-" + hash(operator);
    var result := start + "-" + name;
    assert result[..11] == start && start[..3] == "op-";
    if |result| > 63 {
      var cut := result[..54];
      assert cut[10] == hash(operator)[7];
      assert TrimRight(cut)[..11] == cut[..11] == start;
    }
  }

  lemma {:induction false} ScopedNamesDiffer(hash: string -> string, a: string, x: string, b: string, y: string)
    requires IsHash(hash) && hash(a) != hash(b)
    ensures ScopedName(hash, a, x) != ScopedName(hash, b, y)
  {
    ScopedNameStarts(hash, a, x);
    ScopedNameStarts(hash, b, y);
    assert ("op-" + hash(a))[3..] == hash(a) && ("op-" + hash(b))[3..] == hash(b);
  }

  // ---- Port slots ---------------------------------------------------------------------------

  predicate SlotLegal(role: Role) {
    role.kind.Sidecar? ==> 0 <= role.portIndex < MAX_DATAPLANE_SIDECARS
  }

  /** runtimePortPair */
  function PortNumber(role: Role, l: Listener): int {
    (if l.Grpc? then SERVICE_GRPC_PORT else SERVICE_HTTP_PORT) + (if role.kind.Sidecar? then 2 * role.portIndex else 0)
  }

  /** Every slot lies in the port range, and no two listeners of a Pod's sidecars share a number. */
  lemma SlotsAreApart(a: Role, la: Listener, b: Role, lb: Listener)
    requires a.kind.Sidecar? && b.kind.Sidecar? && SlotLegal(a) && SlotLegal(b)
    ensures 1 <= PortNumber(a, la) <= 65535
    ensures PortNumber(a, la) == PortNumber(b, lb) <==> a.portIndex == b.portIndex && la == lb
  {
    if PortNumber(a, la) == PortNumber(b, lb) {
      assert PortNumber(a, la) % 2 == (if la.Grpc? then 0 else 1);
      assert PortNumber(b, lb) % 2 == (if lb.Grpc? then 0 else 1);
    }
  }

  // ---- Resolving the palette ------------------------------------------------------------------

  datatype Palette = Palette(name: string, listeners: Option<seq<string>>)

  /** A box selects palette entries by name; `None` leaves the default, enabled. */
  type Wiring = map<string, Option<bool>>

  predicate ListenersValid(listeners: Option<seq<string>>) {
    listeners.Some? ==>
      && (forall i :: 0 <= i < |listeners.value| ==> listeners.value[i] == "grpc" || listeners.value[i] == "http")
      && (forall i, j :: 0 <= i < j < |listeners.value| ==> listeners.value[i] != listeners.value[j])
  }

  /** resolveListeners: the declared protocols, gRPC first. */
  function ResolveListeners(listeners: Option<seq<string>>): Option<seq<Listener>> {
    if listeners.None? then None
    else Some((if "grpc" in listeners.value then [Grpc] else []) + (if "http" in listeners.value then [Http] else []))
  }

  /** Selected by the box, unless switched off by it or by the installation. */
  predicate EnabledIn(name: string, box: Wiring, installation: Wiring) {
    if name !in box then false
    else if name in installation && installation[name].Some? then installation[name].value
    else if box[name].Some? then box[name].value else true
  }

  function ResolvedSidecar(entry: Palette, index: nat, box: Wiring, installation: Wiring): Role {
    Role(Sidecar, entry.name, EnabledIn(entry.name, box, installation), [], ResolveListeners(entry.listeners), index)
  }

  method ValidateListeners(listeners: Option<seq<string>>) returns (ok: bool)
    ensures ok <==> ListenersValid(listeners)
  {
    if listeners.None? {
      return true;
    }
    var seen: set<string> := {};
    for i := 0 to |listeners.value|
      invariant forall s :: s in seen <==> exists j :: 0 <= j < i && listeners.value[j] == s
      invariant forall j :: 0 <= j < i ==> listeners.value[j] == "grpc" || listeners.value[j] == "http"
      invariant forall j, k :: 0 <= j < k < i ==> listeners.value[j] != listeners.value[k]
    {
      var listener := listeners.value[i];
      if (listener != "grpc" && listener != "http") || listener in seen {
        return false;
      }
      seen := seen + {listener};
    }
    ok := true;
  }

  /** No two entries share a name or a short identity. */
  ghost predicate IdentitiesDistinct(hash: string -> string, palette: seq<Palette>) {
    forall i, j :: 0 <= i < j < |palette| ==> hash(palette[i].name) != hash(palette[j].name)
  }

  ghost predicate PaletteValid(hash: string -> string, palette: seq<Palette>, box: Wiring) {
    && |palette| <= MAX_DATAPLANE_SIDECARS
    && IdentitiesDistinct(hash, palette)
    && (forall i :: 0 <= i < |palette| ==> ListenersValid(palette[i].listeners))
    && (forall name :: name in box ==> exists i :: 0 <= i < |palette| && palette[i].name == name)
  }

  method ResolveEntry(entry: Palette, index: nat, box: Wiring, installation: Wiring) returns (r: Role)
    ensures r == ResolvedSidecar(entry, index, box, installation)
  {
    var wired := entry.name in box;
    var enabled := wired && (if box[entry.name].Some? then box[entry.name].value else true);
    if wired && entry.name in installation && installation[entry.name].Some? {
      enabled := installation[entry.name].value;
    }
    r := Role(Sidecar, entry.name, enabled, [], ResolveListeners(entry.listeners), index);
  }

  /** Validation of the palette entries on their own. */
  method ValidatePalette(hash: string -> string, palette: seq<Palette>) returns (ok: bool, declared: set<string>)
    ensures ok <==> && IdentitiesDistinct(hash, palette)
                    && forall i :: 0 <= i < |palette| ==> ListenersValid(palette[i].listeners)
    ensures ok ==> forall s :: s in declared <==> exists j :: 0 <= j < |palette| && palette[j].name == s
  {
    declared := {};
    var identities: set<string> := {};
    for i := 0 to |palette|
      invariant forall s :: s in declared <==> exists j :: 0 <= j < i && palette[j].name == s
      invariant forall s :: s in identities <==> exists j :: 0 <= j < i && hash(palette[j].name) == s
      invariant forall j, k :: 0 <= j < k < i ==> hash(palette[j].name) != hash(palette[k].name)
      invariant forall j :: 0 <= j < i ==> ListenersValid(palette[j].listeners)
    {
      var entry := palette[i];
      if entry.name in declared || hash(entry.name) in identities {
        ok := false;
        return;
      }
      declared := declared + {entry.name};
      identities := identities + {hash(entry.name)};
      ok := ValidateListeners(entry.listeners);
      if !ok {
        return;
      }
    }
    ok := true;
  }

  /**
   resolveDataplaneSidecars: the whole palette in order, selected or not, each entry with the slot of its
   palette place. The entries are validated ahead of being resolved, which decides the same.
   */
  method ResolveDataplaneSidecars(hash: string -> string, palette: seq<Palette>, box: Wiring, installation: Wiring)
    returns (r: Option<seq<Role>>)
    ensures r.Some? <==> PaletteValid(hash, palette, box)
    ensures r.Some? ==> IsResolved(palette, box, installation, r.value)
  {
    if |palette| > MAX_DATAPLANE_SIDECARS {
      return None;
    }
    var valid, declared := ValidatePalette(hash, palette);
    if !valid {
      return None;
    }
    var resolved: seq<Role> := [];
    for i := 0 to |palette|
      invariant |resolved| == i
      invariant forall j :: 0 <= j < i ==> resolved[j] == ResolvedSidecar(palette[j], j, box, installation)
    {
      var role := ResolveEntry(palette[i], i, box, installation);
      resolved := resolved + [role];
    }
    if exists name :: name in box.Keys && name !in declared {
      return None;
    }
    r := Some(resolved);
  }

  ghost predicate IsResolved(palette: seq<Palette>, box: Wiring, installation: Wiring, r: seq<Role>) {
    && |r| == |palette|
    && forall i :: 0 <= i < |palette| ==> r[i] == ResolvedSidecar(palette[i], i, box, installation)
  }

  /** What composition relies on: sidecars in legal, distinct slots with distinct identities and listeners. */
  ghost predicate SidecarsLegal(hash: string -> string, sidecars: seq<Role>) {
    && (forall i :: 0 <= i < |sidecars|
          ==> sidecars[i].kind.Sidecar? && SlotLegal(sidecars[i]) && ListenersDistinct(sidecars[i]))
    && (forall i, j :: 0 <= i < j < |sidecars| ==>
          hash(sidecars[i].name) != hash(sidecars[j].name) && sidecars[i].portIndex != sidecars[j].portIndex)
  }

  /**
   A valid palette resolves to legal sidecars, and switching roles on or off moves nobody: names, listeners
   and slots are those of the palette.
   */
  lemma {:induction false} SlotsAreStable(hash: string -> string, palette: seq<Palette>, box: Wiring,
                                          installation: Wiring, r: seq<Role>, box': Wiring, installation': Wiring,
                                          r': seq<Role>)
    requires PaletteValid(hash, palette, box) && IsResolved(palette, box, installation, r)
    requires IsResolved(palette, box', installation', r')
    ensures SidecarsLegal(hash, r)
    ensures forall i, l :: 0 <= i < |r| ==>
              r[i].(enabled := true) == r'[i].(enabled := true) && PortNumber(r[i], l) == PortNumber(r'[i], l)
                && TargetPort(hash, r[i], l) == TargetPort(hash, r'[i], l)
  {
    forall i | 0 <= i < |r| ensures ListenersDistinct(r[i]) {
      var declared := palette[i].listeners;
      if declared.Some? {
        var g, h := "grpc" in declared.value, "http" in declared.value;
        assert ListenersOf(r[i]) == (if g then [Grpc] else []) + (if h then [Http] else []);
      }
    }
  }

  /** What the installation says of the sidecar, else what the box says, else on; off if the box does not select it. */
  ghost predicate SwitchedBy(name: string, box: Wiring, installation: Wiring, enabled: bool) {
    && (name !in box ==> !enabled)
    && (name in box && name in installation && installation[name].Some? ==> enabled == installation[name].value)
    && (name in box && (name in installation ==> installation[name].None?) ==>
          (box[name].Some? ==> enabled == box[name].value) && (box[name].None? ==> enabled))
  }

  /** A resolved palette, entry by entry: its switch, its slot and its listeners. */
  lemma ResolvedTells(palette: seq<Palette>, box: Wiring, installation: Wiring, r: seq<Role>, i: nat)
    requires IsResolved(palette, box, installation, r) && i < |palette|
    ensures r[i].kind == Sidecar && r[i].name == palette[i].name && r[i].portIndex == i
    ensures SwitchedBy(palette[i].name, box, installation, r[i].enabled)
    ensures palette[i].listeners.None? ==> ListenersOf(r[i]) == [Grpc]
    ensures palette[i].listeners.Some? ==>
              && (Grpc in ListenersOf(r[i]) <==> "grpc" in palette[i].listeners.value)
              && (Http in ListenersOf(r[i]) <==> "http" in palette[i].listeners.value)
    ensures forall l :: PortNumber(r[i], l) == (if l.Grpc? then 8080 else 8081) + i + i
  {
    assert r[i] == ResolvedSidecar(palette[i], i, box, installation);
  }

  /** The slots use up the port range: the last one fits and one more would not. */
  lemma SlotsUseTheRange(last: Role, next: Role)
    requires last.kind.Sidecar? && last.portIndex == MAX_DATAPLANE_SIDECARS - 1
    requires next.kind.Sidecar? && next.portIndex == MAX_DATAPLANE_SIDECARS
    ensures PortNumber(last, Http) <= 65535 < PortNumber(next, Http)
  {
  }

  /** Scoped names fit a DNS label, and long ones end in the hash of the full name. */
  lemma {:induction false} ScopedNameFits(hash: string -> string, operator: string, name: string)
    requires IsHash(hash)
    ensures var full, scoped := "op-" + hash(operator) + "-" + name, ScopedName(hash, operator, name);
            && |scoped| <= 63
            && (|full| <= 63 ==> scoped == full)
            && (|full| > 63 ==> |scoped| > 9 && scoped[|scoped| - 9..] == "-" + hash(full))
  {
    var full, scoped := "op-" + hash(operator) + "-" + name, ScopedName(hash, operator, name);
    if |full| > 63 {
      var start := TrimRight(full[..54]);
      assert full[0] == 'o' && scoped == start + ("-" + hash(full));
      assert scoped[|start|..] == "-" + hash(full);
    }
  }
}
