/**
 What it is to be a sublist of the chosen items, in order.
 */
module Filters {

  /** The number of chosen items. */
  ghost function Count<T(!new)>(s: seq<T>, chosen: T -> bool): nat {
    if s == [] then 0 else Count(s[..|s| - 1], chosen) + if chosen(s[|s| - 1]) then 1 else 0
  }

  /** The result holds the chosen items of the list and no others, each at the place its predecessors leave it. */
  ghost predicate IsFilter<T(!new)>(s: seq<T>, chosen: T -> bool, r: seq<T>) {
    && |r| == Count(s, chosen)
    && forall i :: 0 <= i < |s| && chosen(s[i]) ==>
         Count(s[..i], chosen) < |r| && r[Count(s[..i], chosen)] == s[i]
  }

  lemma {:induction false} FilterGrows<T(!new)>(s: seq<T>, chosen: T -> bool, r: seq<T>, x: T)
    requires IsFilter(s, chosen, r)
    ensures IsFilter(s + [x], chosen, if chosen(x) then r + [x] else r)
  {
    var longer := s + [x];
    assert longer[..|s|] == s;
    forall i | 0 <= i < |s| ensures longer[..i] == s[..i] {
    }
  }

  /** Only chosen items are left. */
  lemma {:induction false} FilterHoldsChosen<T(!new)>(s: seq<T>, chosen: T -> bool, r: seq<T>, k: nat)
    requires IsFilter(s, chosen, r) && k < |r|
    ensures exists i :: 0 <= i < |s| && chosen(s[i]) && Count(s[..i], chosen) == k && r[k] == s[i]
    decreases |s|
  {
    var n := |s| - 1;
    if chosen(s[n]) && Count(s[..n], chosen) == k {
      assert r[Count(s[..n], chosen)] == s[n];
    } else {
      var shorter := r[..Count(s[..n], chosen)];
      forall i | 0 <= i < n && chosen(s[i])
        ensures Count(s[..n][..i], chosen) < |shorter| && shorter[Count(s[..n][..i], chosen)] == s[i]
      {
        assert s[..n][..i] == s[..i];
        CountGrows(s, chosen, i, n);
      }
      FilterHoldsChosen(s[..n], chosen, shorter, k);
      var i :| 0 <= i < n && chosen(s[i]) && Count(s[..n][..i], chosen) == k && shorter[k] == s[..n][i];
      assert s[..n][..i] == s[..i];
    }
  }

  lemma {:induction false} CountGrows<T(!new)>(s: seq<T>, chosen: T -> bool, i: nat, n: nat)
    requires i < n <= |s| && chosen(s[i])
    ensures Count(s[..i], chosen) < Count(s[..n], chosen)
    decreases n
  {
    assert s[..n][..n - 1] == s[..n - 1];
    if i < n - 1 {
      CountGrows(s, chosen, i, n - 1);
    }
  }

  /** Counting from the front. */
  lemma {:induction false} CountFromFront<T(!new)>(s: seq<T>, chosen: T -> bool)
    requires s != []
    ensures Count(s, chosen) == (if chosen(s[0]) then 1 else 0) + Count(s[1..], chosen)
    decreases |s|
  {
    if |s| > 1 {
      CountFromFront(s[..|s| - 1], chosen);
      assert s[..|s| - 1][1..] == s[1..][..|s| - 2];
    } else {
      assert s[..0] == [] && s[1..] == [];
    }
  }
}
