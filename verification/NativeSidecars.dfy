/**
 Restoring operator-owned init containers after a patch
 (restoreNativeSidecars in internal/manifests/labels.go).
 */
module NativeSidecars {
  import opened Options
  import opened Pods
  import opened Filters

  function Names(cs: seq<Container>): set<string> {
    set i | 0 <= i < |cs| :: cs[i].name
  }

  /** The containers with a name in the set (or outside it), in order. */
  function Select(cs: seq<Container>, names: set<string>, inside: bool): seq<Container> {
    if cs == [] then []
    else if cs[0].name in names <==> inside then [cs[0]] + Select(cs[1..], names, inside)
    else Select(cs[1..], names, inside)
  }

  lemma {:induction false} SelectConcat(a: seq<Container>, b: seq<Container>, names: set<string>, inside: bool)
    ensures Select(a + b, names, inside) == Select(a, names, inside) + Select(b, names, inside)
    decreases |a|
  {
    if a == [] {
      assert a + b == b;
    } else {
      assert (a + b)[1..] == a[1..] + b;
      SelectConcat(a[1..], b, names, inside);
      assert [a[0]] + (Select(a[1..], names, inside) + Select(b, names, inside))
          == ([a[0]] + Select(a[1..], names, inside)) + Select(b, names, inside);
    }
  }

  lemma {:induction false} SelectAll(cs: seq<Container>, names: set<string>, inside: bool)
    requires forall i :: 0 <= i < |cs| ==> (cs[i].name in names <==> inside)
    ensures Select(cs, names, inside) == cs && Select(cs, names, !inside) == []
    decreases |cs|
  {
    if cs != [] {
      SelectAll(cs[1..], names, inside);
    }
  }

  // ---- What the restored list is ------------------------------------------------------------

  /** Some container of the list is managed. */
  predicate AnyManaged(cs: seq<Container>, names: set<string>) {
    exists i :: 0 <= i < |cs| && cs[i].name in names
  }

  predicate Present(cs: seq<Container>, name: string) {
    exists i :: 0 <= i < |cs| && cs[i].name == name
  }

  /** The last container of that name; patches keep its content. */
  function Last(cs: seq<Container>, name: string): (c: Container)
    requires Present(cs, name)
    ensures c in cs && c.name == name
  {
    var n := |cs| - 1;
    if cs[n].name == name then cs[n] else
      assert exists i :: 0 <= i < n && cs[..n][i].name == name;
      Last(cs[..n], name)
  }

  /** A captured container with the content the patch gave it and its own restart policy. */
  function Refreshed(inits: seq<Container>, baseline: Container): (c: Container)
    ensures c.name == baseline.name && c.restartPolicy == baseline.restartPolicy
  {
    if Present(inits, baseline.name) then Last(inits, baseline.name).(restartPolicy := baseline.restartPolicy)
    else baseline
  }

  function RefreshedAll(inits: seq<Container>, expected: seq<Container>): (r: seq<Container>)
    ensures |r| == |expected| && forall i :: 0 <= i < |r| ==> r[i] == Refreshed(inits, expected[i])
  {
    seq(|expected|, i requires 0 <= i < |expected| => Refreshed(inits, expected[i]))
  }

  /** Fill the places of managed containers one by one; the last place takes all that remain. */
  function Spliced(cs: seq<Container>, names: set<string>, fill: seq<Container>): seq<Container> {
    if cs == [] then []
    else if cs[0].name !in names then [cs[0]] + Spliced(cs[1..], names, fill)
    else if !AnyManaged(cs[1..], names) then fill + cs[1..]
    else if fill == [] then Spliced(cs[1..], names, [])
    else [fill[0]] + Spliced(cs[1..], names, fill[1..])
  }

  function Restored(inits: seq<Container>, expected: seq<Container>): seq<Container> {
    var names, fill := Names(expected), RefreshedAll(inits, expected);
    if AnyManaged(inits, names) then Spliced(inits, names, fill) else fill + inits
  }

  // ---- The loop -----------------------------------------------------------------------------

  /** The place of the last managed container, or -1. */
  predicate IsLastManaged(cs: seq<Container>, names: set<string>, last: int) {
    && -1 <= last < |cs|
    && (last >= 0 ==> cs[last].name in names)
    && (forall j :: last < j < |cs| ==> cs[j].name !in names)
  }

  lemma {:induction false} SplicedUnmanaged(cs: seq<Container>, names: set<string>, fill: seq<Container>)
    requires !AnyManaged(cs, names)
    ensures Spliced(cs, names, fill) == cs
    decreases |cs|
  {
    if cs != [] {
      assert cs[0].name !in names;
      assert !AnyManaged(cs[1..], names);
      SplicedUnmanaged(cs[1..], names, fill);
    }
  }

  /** What one turn of the loop appends, and how far it then is in the list to fill in. */
  function Appended(c: Container, names: set<string>, last: bool, fill: seq<Container>, next: nat): seq<Container>
    requires next <= |fill|
  {
    if c.name !in names then [c] else fill[next..Position(c, names, last, fill, next)]
  }

  function Position(c: Container, names: set<string>, last: bool, fill: seq<Container>, next: nat): (r: nat)
    requires next <= |fill|
    ensures next <= r <= |fill|
  {
    if c.name !in names then next else if last || next == |fill| then |fill| else next + 1
  }

  /** One turn of the loop. */
  lemma SplicedStep(cs: seq<Container>, names: set<string>, last: int, fill: seq<Container>, i: nat, next: nat)
    requires IsLastManaged(cs, names, last) && i < |cs| && next <= |fill|
    ensures Spliced(cs[i..], names, fill[next..])
         == Appended(cs[i], names, i == last, fill, next)
            + Spliced(cs[i + 1..], names, fill[Position(cs[i], names, i == last, fill, next)..])
  {
    var rest := cs[i..];
    assert rest[1..] == cs[i + 1..];
    if cs[i].name in names {
      if i == last {
        assert !AnyManaged(rest[1..], names);
        SplicedUnmanaged(rest[1..], names, []);
        assert fill[|fill|..] == [];
      } else {
        assert rest[1..][last - i - 1].name in names;
        if next < |fill| {
          assert fill[next..][1..] == fill[next + 1..];
        }
      }
    }
  }

  /** The Pod template of a Deployment under construction. */
  class PodSpec {
    var containers: seq<Container>
    var initContainers: seq<Container>

    constructor (pod: Pod)
      ensures Value() == pod
    {
      containers, initContainers := pod.containers, pod.initContainers;
    }

    function Value(): Pod
      reads this
    {
      Pod(containers, initContainers)
    }

    /** restoreNativeSidecars */
    method RestoreNativeSidecars(expected: seq<Container>)
      modifies this`initContainers
      ensures initContainers == Restored(old(initContainers), expected)
    {
      var restored := RestoredList(initContainers, expected);
      initContainers := restored;
    }
  }

  method RestoredList(inits: seq<Container>, expected: seq<Container>) returns (restored: seq<Container>)
    ensures restored == Restored(inits, expected)
  {
    var managed := ManagedNames(expected);
    var patched, lastFixed := FindPatched(inits, managed);
    var restoredExpected := RestoreExpected(inits, managed, patched, expected);
    restored := [];
    if lastFixed == -1 {
      restored := restoredExpected;
      SplicedUnmanaged(inits, managed, restoredExpected);
    } else {
      assert inits[lastFixed].name in managed;
    }
    restored := Splice(inits, managed, lastFixed, restoredExpected, restored);
  }

  method ManagedNames(expected: seq<Container>) returns (managed: set<string>)
    ensures managed == Names(expected)
  {
    managed := {};
    for i := 0 to |expected|
      invariant managed == Names(expected[..i])
    {
      managed := managed + {expected[i].name};
      NamesGrow(expected, i);
    }
    assert expected[..|expected|] == expected;
  }

  method FindPatched(inits: seq<Container>, managed: set<string>)
    returns (patched: map<string, Container>, lastFixed: int)
    ensures IsLastManaged(inits, managed, lastFixed) && IsPatched(inits, managed, patched)
  {
    patched := map[];
    lastFixed := -1;
    for i := 0 to |inits|
      invariant IsLastManaged(inits[..i], managed, lastFixed)
      invariant IsPatched(inits[..i], managed, patched)
    {
      PatchedGrows(inits, i, managed, patched);
      assert inits[..i + 1] == inits[..i] + [inits[i]];
      if inits[i].name in managed {
        patched := patched[inits[i].name := inits[i]];
        lastFixed := i;
      }
    }
    assert inits[..|inits|] == inits;
  }

  lemma NamesGrow(cs: seq<Container>, i: nat)
    requires i < |cs|
    ensures Names(cs[..i + 1]) == Names(cs[..i]) + {cs[i].name}
  {
    var p, q := cs[..i + 1], cs[..i];
    forall n | n in Names(q) + {cs[i].name} ensures n in Names(p) {
      if n == cs[i].name {
        assert p[i].name == n;
      } else {
        var j :| 0 <= j < i && q[j].name == n;
        assert p[j].name == n;
      }
    }
    forall n | n in Names(p) ensures n in Names(q) + {cs[i].name} {
      var j :| 0 <= j < |p| && p[j].name == n;
      assert j < i ==> q[j].name == n;
    }
  }

  /** The map holds the last container of every managed name that occurs. */
  ghost predicate IsPatched(cs: seq<Container>, managed: set<string>, patched: map<string, Container>) {
    forall n :: (n in patched <==> n in managed && Present(cs, n)) && (n in patched ==> patched[n] == Last(cs, n))
  }

  lemma PatchedGrows(cs: seq<Container>, i: nat, managed: set<string>, patched: map<string, Container>)
    requires i < |cs| && IsPatched(cs[..i], managed, patched)
    ensures IsPatched(cs[..i + 1], managed, if cs[i].name in managed then patched[cs[i].name := cs[i]] else patched)
  {
    assert cs[..i + 1] == cs[..i] + [cs[i]];
    forall n { LastAppended(cs[..i], cs[i], n); }
  }

  method RestoreExpected(inits: seq<Container>, managed: set<string>, patched: map<string, Container>,
                         expected: seq<Container>) returns (r: seq<Container>)
    requires managed == Names(expected) && IsPatched(inits, managed, patched)
    ensures r == RefreshedAll(inits, expected)
  {
    r := [];
    for i := 0 to |expected|
      invariant r == RefreshedAll(inits, expected)[..i]
    {
      var baseline := expected[i];
      assert baseline.name in managed;
      var container := if baseline.name in patched then patched[baseline.name] else baseline;
      r := r + [container.(restartPolicy := baseline.restartPolicy)];
    }
  }

  method Splice(cs: seq<Container>, managed: set<string>, lastFixed: int, fill: seq<Container>, start: seq<Container>)
    returns (restored: seq<Container>)
    requires IsLastManaged(cs, managed, lastFixed)
    ensures restored == start + Spliced(cs, managed, fill)
  {
    restored := start;
    var nextExpected: nat := 0;
    assert fill[0..] == fill && cs[0..] == cs;
    for i := 0 to |cs|
      invariant nextExpected <= |fill|
      invariant restored + Spliced(cs[i..], managed, fill[nextExpected..]) == start + Spliced(cs, managed, fill)
    {
      SplicedStep(cs, managed, lastFixed, fill, i, nextExpected);
      ghost var more := Appended(cs[i], managed, i == lastFixed, fill, nextExpected);
      ghost var at := Position(cs[i], managed, i == lastFixed, fill, nextExpected);
      Regroup(restored, more, Spliced(cs[i + 1..], managed, fill[at..]));
      restored, nextExpected := SpliceOne(cs[i], managed, i == lastFixed, fill, nextExpected, restored);
    }
    assert cs[|cs|..] == [];
  }

  lemma Regroup(a: seq<Container>, b: seq<Container>, c: seq<Container>)
    ensures (a + b) + c == a + (b + c)
  {
  }

  method SpliceOne(c: Container, managed: set<string>, last: bool, fill: seq<Container>, next: nat,
                   restored: seq<Container>) returns (restored': seq<Container>, next': nat)
    requires next <= |fill|
    ensures restored' == restored + Appended(c, managed, last, fill, next)
    ensures next' == Position(c, managed, last, fill, next)
  {
    restored', next' := restored, next;
    if c.name !in managed {
      return restored + [c], next;
    }
    if next < |fill| {
      restored', next' := restored + [fill[next]], next + 1;
    }
    if last {
      assert fill[next..] == fill[next..next'] + fill[next'..];
      restored', next' := restored' + fill[next'..], |fill|;
    }
  }

  // ---- What restoring guarantees ------------------------------------------------------------

  lemma {:induction false} SplicedSelect(cs: seq<Container>, names: set<string>, fill: seq<Container>)
    requires AnyManaged(cs, names)
    requires forall i :: 0 <= i < |fill| ==> fill[i].name in names
    ensures Select(Spliced(cs, names, fill), names, true) == fill
    ensures Select(Spliced(cs, names, fill), names, false) == Select(cs, names, false)
    decreases |cs|
  {
    var rest := cs[1..];
    if cs[0].name !in names {
      assert AnyManaged(rest, names) by {
        var i :| 0 <= i < |cs| && cs[i].name in names;
        assert rest[i - 1].name in names;
      }
      SplicedSelect(rest, names, fill);
      SelectConcat([cs[0]], Spliced(rest, names, fill), names, true);
      SelectConcat([cs[0]], Spliced(rest, names, fill), names, false);
    } else if !AnyManaged(rest, names) {
      SelectAll(fill, names, true);
      SelectAll(rest, names, false);
      SelectConcat(fill, rest, names, true);
      SelectConcat(fill, rest, names, false);
    } else if fill == [] {
      SplicedSelect(rest, names, []);
    } else {
      SplicedSelect(rest, names, fill[1..]);
      SelectConcat([fill[0]], Spliced(rest, names, fill[1..]), names, true);
      SelectConcat([fill[0]], Spliced(rest, names, fill[1..]), names, false);
    }
  }

  /**
   Whatever a patch did, the captured containers come back: all of them, in captured order, with their
   restart policies, holding the content the patch gave them. Every other container keeps its content and order.
   */
  lemma CapturedComeBack(inits: seq<Container>, expected: seq<Container>)
    ensures Select(Restored(inits, expected), Names(expected), true) == RefreshedAll(inits, expected)
    ensures Select(Restored(inits, expected), Names(expected), false) == Select(inits, Names(expected), false)
  {
    var names, fill := Names(expected), RefreshedAll(inits, expected);
    assert forall i :: 0 <= i < |fill| ==> expected[i].name in names;
    if AnyManaged(inits, names) {
      SplicedSelect(inits, names, fill);
    } else {
      SelectAll(fill, names, true);
      SelectAll(inits, names, false);
      SelectConcat(fill, inits, names, true);
      SelectConcat(fill, inits, names, false);
    }
  }

  ghost function Inside(names: set<string>, inside: bool): Container -> bool {
    (c: Container) => c.name in names <==> inside
  }

  lemma {:induction false} SelectIsFilter(cs: seq<Container>, names: set<string>, inside: bool)
    ensures IsFilter(cs, Inside(names, inside), Select(cs, names, inside))
    decreases |cs|
  {
    if cs != [] {
      var n := |cs| - 1;
      SelectIsFilter(cs[..n], names, inside);
      FilterGrows(cs[..n], Inside(names, inside), Select(cs[..n], names, inside), cs[n]);
      assert cs == cs[..n] + [cs[n]];
      SelectConcat(cs[..n], [cs[n]], names, inside);
      assert Select([cs[n]], names, inside) == if cs[n].name in names <==> inside then [cs[n]] else [];
      assert Select(cs[..n], names, inside) + [] == Select(cs[..n], names, inside);
    }
  }

  /** No later container has the name. */
  predicate IsLastPlace(cs: seq<Container>, name: string, k: nat) {
    k < |cs| && cs[k].name == name && forall j :: k < j < |cs| ==> cs[j].name != name
  }

  lemma {:induction false} LastIsAtLastPlace(cs: seq<Container>, name: string, k: nat)
    requires IsLastPlace(cs, name, k)
    ensures Present(cs, name) && Last(cs, name) == cs[k]
    decreases |cs|
  {
    var n := |cs| - 1;
    if k < n {
      LastIsAtLastPlace(cs[..n], name, k);
    }
  }

  /**
   The content of the captured containers after a patch: name and restart policy as captured, everything else from
   the last patched container of the name, or as captured if the patch dropped the name.
   */
  lemma RestoredContent(inits: seq<Container>, expected: seq<Container>, j: nat)
    requires j < |expected|
    ensures var back := Select(Restored(inits, expected), Names(expected), true);
            && |back| == |expected|
            && back[j].name == expected[j].name && back[j].restartPolicy == expected[j].restartPolicy
            && (forall k: nat :: IsLastPlace(inits, expected[j].name, k) ==>
                  back[j].rest == inits[k].rest && back[j].ports == inits[k].ports)
            && ((forall k :: 0 <= k < |inits| ==> inits[k].name != expected[j].name) ==> back[j] == expected[j])
  {
    CapturedComeBack(inits, expected);
    forall k: nat | IsLastPlace(inits, expected[j].name, k) ensures Last(inits, expected[j].name) == inits[k] {
      LastIsAtLastPlace(inits, expected[j].name, k);
    }
  }

  /**
   Where the i-th container goes when the list is restored: the managed containers ahead of it make way for as many
   captured ones, or for all of them if no managed container follows.
   */
  ghost function Place(cs: seq<Container>, names: set<string>, fill: nat, i: nat): int
    requires i < |cs|
  {
    var managed := Count(cs[..i], Inside(names, true));
    i - managed + if AnyManaged(cs[i + 1..], names) && managed < fill then managed else fill
  }

  lemma PlaceShifts(cs: seq<Container>, names: set<string>, fill: nat, i: nat)
    requires 0 < i < |cs|
    ensures cs[0].name !in names ==> Place(cs, names, fill, i) == 1 + Place(cs[1..], names, fill, i - 1)
    ensures cs[0].name in names ==>
              Place(cs, names, fill, i) == if fill == 0 then Place(cs[1..], names, 0, i - 1)
                                           else 1 + Place(cs[1..], names, fill - 1, i - 1)
  {
    CountFromFront(cs[..i], Inside(names, true));
    assert cs[..i][1..] == cs[1..][..i - 1] && cs[1..][i..] == cs[i + 1..];
  }

  lemma {:induction false} SplicedPlaces(cs: seq<Container>, names: set<string>, fill: seq<Container>, i: nat)
    requires AnyManaged(cs, names) && i < |cs| && cs[i].name !in names
    ensures 0 <= Place(cs, names, |fill|, i) < |Spliced(cs, names, fill)|
    ensures Spliced(cs, names, fill)[Place(cs, names, |fill|, i)] == cs[i]
    decreases |cs|
  {
    if i == 0 {
      FirstStays(cs, names, fill);
    } else {
      PlaceShifts(cs, names, |fill|, i);
      if AnyManaged(cs[1..], names) {
        SplicedPlaces(cs[1..], names, if cs[0].name !in names then fill else if fill == [] then [] else fill[1..],
                      i - 1);
      } else {
        LastPlaceFilled(cs, names, fill, i);
      }
    }
  }

  lemma FirstStays(cs: seq<Container>, names: set<string>, fill: seq<Container>)
    requires AnyManaged(cs, names) && cs[0].name !in names
    ensures Place(cs, names, |fill|, 0) == 0 && Spliced(cs, names, fill) != [] && Spliced(cs, names, fill)[0] == cs[0]
  {
    RestManaged(cs, names);
  }

  lemma RestManaged(cs: seq<Container>, names: set<string>)
    requires AnyManaged(cs, names) && cs[0].name !in names
    ensures AnyManaged(cs[1..], names)
  {
    var k :| 0 <= k < |cs| && cs[k].name in names;
    assert cs[1..][k - 1].name in names;
  }

  lemma LastPlaceFilled(cs: seq<Container>, names: set<string>, fill: seq<Container>, i: nat)
    requires 0 < i < |cs| && AnyManaged(cs, names) && !AnyManaged(cs[1..], names)
    ensures Place(cs, names, |fill|, i) == |fill| + i - 1 && Spliced(cs, names, fill) == fill + cs[1..]
  {
    NothingManaged(cs[1..], names, i - 1);
    CountFromFront(cs[..i], Inside(names, true));
    assert cs[..i][1..] == cs[1..][..i - 1] && cs[1..][i..] == cs[i + 1..];
    if cs[0].name !in names {
      RestManaged(cs, names);
    }
  }

  /** Nothing is managed before or after a place of a list without managed containers. */
  lemma NothingManaged(cs: seq<Container>, names: set<string>, i: nat)
    requires !AnyManaged(cs, names) && i < |cs|
    ensures Count(cs[..i], Inside(names, true)) == 0 && !AnyManaged(cs[i + 1..], names)
  {
    NoneCounted(cs[..i], names);
    var tail := cs[i + 1..];
    assert forall k :: 0 <= k < |tail| ==> tail[k] == cs[i + 1 + k];
  }

  lemma {:induction false} NoneCounted(cs: seq<Container>, names: set<string>)
    requires forall k :: 0 <= k < |cs| ==> cs[k].name !in names
    ensures Count(cs, Inside(names, true)) == 0
    decreases |cs|
  {
    if cs != [] {
      NoneCounted(cs[..|cs| - 1], names);
    }
  }

  /**
   Where the other containers stand: each place of a managed container takes one captured container, and the last
   such place, or the front if there is none, takes all that remain.
   */
  lemma OthersKeepPlaces(inits: seq<Container>, expected: seq<Container>, i: nat)
    requires i < |inits| && inits[i].name !in Names(expected)
    ensures var place := Place(inits, Names(expected), |expected|, i);
            0 <= place < |Restored(inits, expected)| && Restored(inits, expected)[place] == inits[i]
  {
    var names := Names(expected);
    if AnyManaged(inits, names) {
      SplicedPlaces(inits, names, RefreshedAll(inits, expected), i);
    } else {
      NothingManaged(inits, names, i);
    }
  }

  lemma {:induction false} SelectNonempty(cs: seq<Container>, names: set<string>)
    ensures Select(cs, names, true) != [] <==> AnyManaged(cs, names)
    decreases |cs|
  {
    if cs != [] {
      SelectNonempty(cs[1..], names);
      if AnyManaged(cs, names) && cs[0].name !in names {
        var i :| 0 <= i < |cs| && cs[i].name in names;
        assert cs[1..][i - 1].name in names;
      }
      if AnyManaged(cs[1..], names) {
        var i :| 0 <= i < |cs[1..]| && cs[1..][i].name in names;
        assert cs[i + 1].name in names;
      }
    }
  }

  lemma {:induction false} SplicedSelf(cs: seq<Container>, names: set<string>)
    requires AnyManaged(cs, names)
    ensures Spliced(cs, names, Select(cs, names, true)) == cs
    decreases |cs|
  {
    var rest := cs[1..];
    SelectNonempty(rest, names);
    if cs[0].name !in names {
      assert AnyManaged(rest, names) by {
        var i :| 0 <= i < |cs| && cs[i].name in names;
        assert rest[i - 1].name in names;
      }
      SplicedSelf(rest, names);
    } else {
      var managed := Select(rest, names, true);
      assert ([cs[0]] + managed)[1..] == managed;
      if AnyManaged(rest, names) {
        SplicedSelf(rest, names);
      }
    }
  }

  lemma LastAppended(cs: seq<Container>, c: Container, name: string)
    ensures Present(cs + [c], name) <==> Present(cs, name) || c.name == name
    ensures Present(cs + [c], name) ==> Last(cs + [c], name) == if c.name == name then c else Last(cs, name)
  {
    var grown := cs + [c];
    assert grown[..|cs|] == cs && grown[|cs|] == c;
    if Present(cs, name) {
      var i :| 0 <= i < |cs| && cs[i].name == name;
      assert grown[i].name == name;
    }
  }

  lemma {:induction false} LastOfSelect(cs: seq<Container>, names: set<string>, name: string)
    requires name in names
    ensures Present(Select(cs, names, true), name) <==> Present(cs, name)
    ensures Present(cs, name) ==> Last(Select(cs, names, true), name) == Last(cs, name)
    decreases |cs|
  {
    if cs != [] {
      var n := |cs| - 1;
      var init, c := cs[..n], cs[n];
      LastOfSelect(init, names, name);
      LastAppended(init, c, name);
      LastAppended(Select(init, names, true), c, name);
      SelectConcat(init, [c], names, true);
      assert cs == init + [c];
      if c.name in names {
        assert Select([c], names, true) == [c];
      } else {
        assert Select([c], names, true) == [];
        assert Select(cs, names, true) == Select(init, names, true);
      }
    }
  }

  /** Captured containers of one name that no patched container stands for have the same content. */
  predicate Agree(inits: seq<Container>, expected: seq<Container>) {
    forall i, j :: 0 <= i < |expected| && 0 <= j < |expected| && expected[i].name == expected[j].name
                   && !Present(inits, expected[i].name)
      ==> expected[i].(restartPolicy := None) == expected[j].(restartPolicy := None)
  }

  /** The place of the last container of that name. */
  lemma LastPlace(cs: seq<Container>, name: string) returns (j: nat)
    requires Present(cs, name)
    ensures j < |cs| && cs[j].name == name && cs[j] == Last(cs, name)
  {
    var n := |cs| - 1;
    if cs[n].name == name {
      j := n;
    } else {
      var i :| 0 <= i < |cs| && cs[i].name == name;
      assert cs[..n][i].name == name;
      j := LastPlace(cs[..n], name);
    }
  }

  lemma RefreshedTwice(inits: seq<Container>, expected: seq<Container>)
    requires expected != []
    ensures Agree(inits, expected)
            ==> RefreshedAll(RefreshedAll(inits, expected), expected) == RefreshedAll(inits, expected)
  {
    var fill := RefreshedAll(inits, expected);
    if Agree(inits, expected) {
      forall i | 0 <= i < |expected| ensures Refreshed(fill, expected[i]) == fill[i] {
        assert fill[i].name == expected[i].name;
        var j := LastPlace(fill, expected[i].name);
      }
    }
  }

  /** Refreshing twice gives every container that stands for itself the content of the last of its name. */
  lemma LastOneRefreshes(inits: seq<Container>, expected: seq<Container>, i: nat)
    requires i < |expected| && !Present(inits, expected[i].name)
    requires RefreshedAll(RefreshedAll(inits, expected), expected) == RefreshedAll(inits, expected)
    ensures var fill := RefreshedAll(inits, expected);
            Present(fill, expected[i].name) && expected[i].(restartPolicy := None)
                                               == Last(fill, expected[i].name).(restartPolicy := None)
  {
    var fill := RefreshedAll(inits, expected);
    assert fill[i].name == expected[i].name;
    assert RefreshedAll(fill, expected)[i] == Refreshed(fill, expected[i]);
  }

  lemma RefreshedTwiceOnlyIf(inits: seq<Container>, expected: seq<Container>)
    requires RefreshedAll(RefreshedAll(inits, expected), expected) == RefreshedAll(inits, expected)
    ensures Agree(inits, expected)
  {
    forall i, k | 0 <= i < |expected| && 0 <= k < |expected| && expected[i].name == expected[k].name
                  && !Present(inits, expected[i].name)
      ensures expected[i].(restartPolicy := None) == expected[k].(restartPolicy := None)
    {
      LastOneRefreshes(inits, expected, i);
      LastOneRefreshes(inits, expected, k);
    }
  }

  lemma RefreshedBySelect(cs: seq<Container>, expected: seq<Container>)
    ensures RefreshedAll(Select(cs, Names(expected), true), expected) == RefreshedAll(cs, expected)
  {
    var names := Names(expected);
    forall i | 0 <= i < |expected|
      ensures Refreshed(Select(cs, names, true), expected[i]) == Refreshed(cs, expected[i])
    {
      assert expected[i].name in names;
      LastOfSelect(cs, names, expected[i].name);
    }
  }

  /** Restoring a restored list changes nothing, exactly when same-named captured containers agree. */
  lemma RestoringTwice(inits: seq<Container>, expected: seq<Container>)
    ensures Restored(Restored(inits, expected), expected) == Restored(inits, expected) <==> Agree(inits, expected)
  {
    var names, fill, r := Names(expected), RefreshedAll(inits, expected), Restored(inits, expected);
    if expected != [] {
      CapturedComeBack(inits, expected);
      SelectNonempty(r, names);
      RefreshedBySelect(r, expected);
      var again := RefreshedAll(fill, expected);
      assert Restored(r, expected) == Spliced(r, names, again);
      CapturedComeBack(r, expected);
      SplicedSelf(r, names);
      RefreshedTwice(inits, expected);
      if again == fill {
        RefreshedTwiceOnlyIf(inits, expected);
      }
    }
  }

  /** Captured duplicates are overwritten by the last of them on the second restoration. */
  lemma DuplicatesAreNotStable()
    ensures var expected := [Container("op-a", "x", [], None), Container("op-a", "y", [], None)];
            Restored(Restored([], expected), expected) != Restored([], expected)
  {
    var a, b := Container("op-a", "x", [], None), Container("op-a", "y", [], None);
    RestoringTwice([], [a, b]);
    assert [a, b][0].(restartPolicy := None) != [a, b][1].(restartPolicy := None);
  }
}
