/**
 What becomes of a Service, in terms of what the listed installations ask for
 (internal/controller/shared_services.go).
 */
module ServiceOutcomes {
  import opened Options
  import opened SharedServices

  /** A component of a live installation whose configuration resolves asks for the Service. */
  ghost predicate Asked(listing: seq<Installation>, s: Service) {
    exists i, e ::
      && 0 <= i < |listing| && !listing[i].deleting && listing[i].resolved
      && 0 <= e < |listing[i].events| && listing[i].events[e] == Plan(s)
  }

  /** An installation of the scope does. */
  ghost predicate AskedFor(listing: seq<Installation>, scope: Scope, s: Service) {
    exists i, e ::
      && 0 <= i < |listing| && listing[i].scope == scope && !listing[i].deleting && listing[i].resolved
      && 0 <= e < |listing[i].events| && listing[i].events[e] == Plan(s)
  }

  /** Everybody who asks for its key asks for the same. */
  ghost predicate Undisputed(listing: seq<Installation>, s: Service) {
    forall t :: Asked(listing, t) && t.key == s.key ==> t.spec == s.spec
  }

  lemma AskedIsPlanned(listing: seq<Installation>, s: Service)
    ensures s in Plans(listing) <==> Asked(listing, s)
  {
  }

  lemma UndisputedIsAgreed(listing: seq<Installation>, s: Service)
    requires Asked(listing, s)
    ensures Agreed(Plans(listing), s) <==> Undisputed(listing, s)
  {
    forall t ensures t in Plans(listing) <==> Asked(listing, t) {
      AskedIsPlanned(listing, t);
    }
    if t :| Asked(listing, t) && t.key == s.key && t.spec != s.spec {
      assert Ambiguous(Plans(listing), s.key);
    }
  }

  /** Written is what is asked for without dispute, unless a live installation of its scope has to wait. */
  lemma {:induction false} WritesExactly(listing: seq<Installation>, boxes: map<string, Box>,
                                         inventory: string -> Option<seq<Producer>>, s: Service)
    ensures Writable(listing, boxes, inventory, s) <==>
              && Asked(listing, s) && Undisputed(listing, s)
              && forall i :: 0 <= i < |listing| && listing[i].scope == Scope(s.key.ns, s.spec.boxType) ==>
                   listing[i].deleting || !Waits(boxes, inventory, listing[i].scope)
  {
    AskedIsPlanned(listing, s);
    if Asked(listing, s) {
      UndisputedIsAgreed(listing, s);
    }
  }

  /** The live installations of the scope resolve, none of their components fails, and none has to wait. */
  ghost predicate InOrder(listing: seq<Installation>, boxes: map<string, Box>,
                          inventory: string -> Option<seq<Producer>>, scope: Scope) {
    forall i :: 0 <= i < |listing| && listing[i].scope == scope && !listing[i].deleting ==>
      listing[i].resolved && Failure !in listing[i].events && !Waits(boxes, inventory, scope)
  }

  /** What is asked for in the scope without dispute was written. */
  ghost predicate AllWritten(listing: seq<Installation>, applies: Service -> bool, scope: Scope) {
    forall s :: Asked(listing, s) && ScopeOf(s) == scope && Undisputed(listing, s) ==> applies(s)
  }

  /** A deleted Service is ours and asked for by nobody, and its scope is in order and completely written. */
  lemma {:induction false} PrunesOnly(listing: seq<Installation>, boxes: map<string, Box>,
                                      inventory: string -> Option<seq<Producer>>, applies: Service -> bool, x: Existing)
    requires Prunable(listing, boxes, inventory, applies, x)
    ensures x.controlled && forall s :: Asked(listing, s) ==> s.key != x.key
    ensures InOrder(listing, boxes, inventory, Scope(x.key.ns, x.boxType))
    ensures AllWritten(listing, applies, Scope(x.key.ns, x.boxType))
  {
    var scope := Scope(x.key.ns, x.boxType);
    forall s | Asked(listing, s) ensures s.key != x.key {
      AskedIsPlanned(listing, s);
    }
    ProtectionBounds(listing, scope);
    forall i | 0 <= i < |listing| && listing[i].scope == scope && !listing[i].deleting
      ensures listing[i].resolved && Failure !in listing[i].events && !Waits(boxes, inventory, scope)
    {
      assert !Faulty(listing[i]);
    }
    forall s | Asked(listing, s) && ScopeOf(s) == scope && Undisputed(listing, s) ensures applies(s) {
      AskedIsPlanned(listing, s);
      UndisputedIsAgreed(listing, s);
      assert Writable(listing, boxes, inventory, s);
    }
  }

  /** Conversely, such a Service is deleted if nothing its scope asks for is disputed. */
  lemma {:induction false} PrunesUndisputed(listing: seq<Installation>, boxes: map<string, Box>,
                                            inventory: string -> Option<seq<Producer>>, applies: Service -> bool,
                                            x: Existing)
    requires x.controlled && forall s :: Asked(listing, s) ==> s.key != x.key
    requires InOrder(listing, boxes, inventory, Scope(x.key.ns, x.boxType))
    requires AllWritten(listing, applies, Scope(x.key.ns, x.boxType))
    requires forall s :: AskedFor(listing, Scope(x.key.ns, x.boxType), s) ==> Undisputed(listing, s)
    ensures Prunable(listing, boxes, inventory, applies, x)
  {
    var scope := Scope(x.key.ns, x.boxType);
    forall s | s in Plans(listing) ensures s.key != x.key {
      AskedIsPlanned(listing, s);
    }
    ProtectionBounds(listing, scope);
    forall s | PlannedFor(listing, scope, s) ensures !Ambiguous(Plans(listing), s.key) {
      assert AskedFor(listing, scope, s) && Asked(listing, s);
      UndisputedIsAgreed(listing, s);
    }
    forall s | s in Plans(listing) && ScopeOf(s) == scope && Writable(listing, boxes, inventory, s) ensures applies(s) {
      AskedIsPlanned(listing, s);
      UndisputedIsAgreed(listing, s);
    }
  }
}
