/**
 The names of Deployments (internal/manifests/builder.go). A name of one installation tells the node, and on one node
 it tells the workload unless an operator carries the name of a controlplane instance.
 */
module WorkloadNames {
  import opened Strings

  /** "<installation>-<short hash of the node>-<component>", with an optional NUMA suffix. */
  function NameFor(hash: string -> string, yanet: string, node: string, suffix: string): string {
    yanet + "-" + hash(node) + "-" + suffix
  }

  /** The short keys have eight digits and tell the node names in play apart. */
  ghost predicate Distinct(hash: string -> string, inPlay: set<string>) {
    && (forall n :: n in inPlay ==> |hash(n)| == 8)
    && (forall m, n :: m in inPlay && n in inPlay && hash(m) == hash(n) ==> m == n)
  }

  /** A name of one installation tells the node. */
  lemma {:induction false} NameTellsNode(hash: string -> string, inPlay: set<string>, yanet: string, m: string,
                                         n: string, s: string, t: string)
    requires Distinct(hash, inPlay) && m in inPlay && n in inPlay
    requires NameFor(hash, yanet, m, s) == NameFor(hash, yanet, n, t)
    ensures m == n
  {
    var k := |yanet| + 1;
    assert hash(m) == NameFor(hash, yanet, m, s)[k..k + 8];
    assert hash(n) == NameFor(hash, yanet, n, t)[k..k + 8];
  }

  // ---- The workloads of one node ----------------------------------------------------------------

  predicate IsUpper(c: char) {
    'A' <= c <= 'Z'
  }

  function Kebab(s: string): string {
    if s == "" then ""
    else
      var n := |s| - 1;
      Kebab(s[..n]) + if !IsUpper(s[n]) then [s[n]] else (if n > 0 then "-" else "") + [Lower(s[n])]
  }

  function Lower(c: char): char
    requires IsUpper(c)
  {
    (c as int + 32) as char
  }

  /** toLowerKebab. */
  method ToLowerKebab(s: string) returns (out: string)
    ensures out == Kebab(s)
  {
    out := "";
    for i := 0 to |s|
      invariant out == Kebab(s[..i])
    {
      assert s[..i + 1][..i] == s[..i];
      if IsUpper(s[i]) {
        if i > 0 {
          out := out + "-";
        }
        out := out + [Lower(s[i])];
      } else {
        out := out + [s[i]];
      }
    }
    assert s[..|s|] == s;
  }

  predicate NoUpper(s: string) {
    forall i :: 0 <= i < |s| ==> !IsUpper(s[i])
  }

  /** Names without capitals, such as all names admission lets through, are kept. */
  lemma {:induction false} KebabKeeps(s: string, t: string)
    requires NoUpper(t)
    ensures Kebab(s + t) == Kebab(s) + t
    decreases |t|
  {
    if t == "" {
      assert s + t == s;
    } else {
      var n := |t| - 1;
      KebabKeeps(s, t[..n]);
      assert (s + t)[..|s + t| - 1] == s + t[..n];
      assert t == t[..n] + [t[n]];
    }
  }

  lemma KebabOfCapital(s: string, c: char)
    requires s != "" && IsUpper(c)
    ensures Kebab(s + [c]) == Kebab(s) + "-" + [Lower(c)]
  {
    assert (s + [c])[..|s|] == s;
  }

  lemma KebabOfBirdAdapter()
    ensures Kebab("birdAdapter") == "bird-adapter"
  {
    KebabKeeps("", "bird");
    KebabOfCapital("" + "bird", 'A');
    KebabKeeps("" + "bird" + "A", "dapter");
    assert "" + "bird" + "A" + "dapter" == "birdAdapter";
    assert Kebab("birdAdapter") == "" + "bird" + "-" + "a" + "dapter";
  }

  datatype Component = Dataplane | BirdAdapter | Controlplane(numa: nat) | Operator(name: string)

  /** What a box type switches on; a NUMA count of zero is the default of one. */
  datatype Box = Box(
    dataplane: bool, birdAdapter: bool, controlplane: bool, numa: nat, disabledNuma: set<int>, operators: set<string>)

  /** The Deployments of a box on one node. */
  predicate Renders(box: Box, c: Component) {
    match c
    case Dataplane => box.dataplane
    case BirdAdapter => box.birdAdapter
    case Controlplane(i) => box.controlplane && i < (if box.numa == 0 then 1 else box.numa) && i !in box.disabledNuma
    case Operator(name) => name in box.operators
  }

  /** singleDeploymentName, and numaDeploymentName for the controlplane. */
  function DeploymentName(hash: string -> string, yanet: string, node: string, c: Component): string {
    NameFor(hash, yanet, node,
            match c
            case Dataplane => Kebab("dataplane")
            case BirdAdapter => Kebab("birdAdapter")
            case Controlplane(i) => Kebab("controlplane") + "-numa" + Decimal(i)
            case Operator(name) => Kebab(name))
  }

  const FIXED_NAMES := {"controlplane", "dataplane", "bird-adapter"}

  /** validateOperatorUniqueness: operators carry DNS labels and no name of a fixed component. */
  predicate Admitted(box: Box) {
    forall name :: name in box.operators ==> NoUpper(name) && name !in FIXED_NAMES
  }

  /** The name without its installation and node. */
  function Suffix(c: Component): string {
    match c
    case Dataplane => "dataplane"
    case BirdAdapter => "bird-adapter"
    case Controlplane(i) => "controlplane-numa" + Decimal(i)
    case Operator(name) => name
  }

  lemma {:induction false} NameEndsInSuffix(hash: string -> string, yanet: string, node: string, c: Component)
    requires c.Operator? ==> NoUpper(c.name)
    ensures DeploymentName(hash, yanet, node, c) == NameFor(hash, yanet, node, Suffix(c))
  {
    match c
    case Dataplane => KebabKeeps("", "dataplane"); assert "" + "dataplane" == "dataplane";
    case BirdAdapter => KebabOfBirdAdapter();
    case Controlplane(i) =>
      KebabKeeps("", "controlplane");
      assert "" + "controlplane" == "controlplane" && "controlplane" + "-numa" == "controlplane-numa";
    case Operator(name) => KebabKeeps("", name); assert "" + name == name;
  }

  /** Names of one node are equal exactly when their suffixes are. */
  lemma {:induction false} SuffixTells(hash: string -> string, yanet: string, node: string, a: Component, b: Component)
    requires (a.Operator? ==> NoUpper(a.name)) && (b.Operator? ==> NoUpper(b.name))
    ensures DeploymentName(hash, yanet, node, a) == DeploymentName(hash, yanet, node, b) <==> Suffix(a) == Suffix(b)
  {
    NameEndsInSuffix(hash, yanet, node, a);
    NameEndsInSuffix(hash, yanet, node, b);
    var k := |yanet + "-" + hash(node) + "-"|;
    assert NameFor(hash, yanet, node, Suffix(a))[k..] == Suffix(a);
    assert NameFor(hash, yanet, node, Suffix(b))[k..] == Suffix(b);
  }

  /** Apart from the fixed names, only an operator and a controlplane instance can share a suffix. */
  lemma SuffixesMeet(a: Component, b: Component)
    requires Suffix(a) == Suffix(b) && a != b
    requires (a.Operator? ==> a.name !in FIXED_NAMES) && (b.Operator? ==> b.name !in FIXED_NAMES)
    ensures (a.Operator? && b.Controlplane?) || (b.Operator? && a.Controlplane?)
  {
    if a.Controlplane? && b.Controlplane? {
      assert Decimal(a.numa) == Suffix(a)[17..] && Decimal(b.numa) == Suffix(b)[17..];
      DecimalIsInjective(a.numa, b.numa);
    } else if a.Controlplane? || b.Controlplane? {
      assert (if a.Controlplane? then Suffix(a) else Suffix(b))[0] == 'c';
    }
  }

  /** No two workloads of the node share a name. */
  ghost predicate NamesDiffer(hash: string -> string, yanet: string, node: string, box: Box) {
    forall a, b :: Renders(box, a) && Renders(box, b) && a != b ==>
      DeploymentName(hash, yanet, node, a) != DeploymentName(hash, yanet, node, b)
  }

  /** An operator of the box is named like one of its controlplane instances. */
  ghost predicate OperatorTakesInstance(box: Box) {
    exists i: nat :: Renders(box, Controlplane(i)) && Suffix(Controlplane(i)) in box.operators
  }

  /** On one node no two workloads share a name, exactly when no operator is named like a controlplane instance. */
  lemma {:induction false} NamesTellWorkloads(hash: string -> string, yanet: string, node: string, box: Box)
    requires Admitted(box)
    ensures NamesDiffer(hash, yanet, node, box) <==> !OperatorTakesInstance(box)
  {
    forall a, b | Renders(box, a) && Renders(box, b) && a != b
      ensures DeploymentName(hash, yanet, node, a) == DeploymentName(hash, yanet, node, b) ==>
                OperatorTakesInstance(box)
    {
      SuffixTells(hash, yanet, node, a, b);
      if Suffix(a) == Suffix(b) {
        SuffixesMeet(a, b);
      }
    }
    if i: nat :| Renders(box, Controlplane(i)) && Suffix(Controlplane(i)) in box.operators {
      SuffixTells(hash, yanet, node, Controlplane(i), Operator(Suffix(Controlplane(i))));
    }
  }

  /** Admission lets an operator take the name of the first controlplane instance. */
  lemma {:induction false} AdmittedOperatorTakesInstance(hash: string -> string, yanet: string, node: string)
    ensures var box := Box(true, true, true, 0, {}, {"controlplane-numa0"});
            Admitted(box) && !NamesDiffer(hash, yanet, node, box)
  {
    var box := Box(true, true, true, 0, {}, {"controlplane-numa0"});
    assert Decimal(0) == "0" && "controlplane-numa" + "0" == "controlplane-numa0";
    assert Renders(box, Controlplane(0)) && Suffix(Controlplane(0)) in box.operators;
    NamesTellWorkloads(hash, yanet, node, box);
  }
}
