/**
 Reconciling the Services shared by the installations of a namespace and box type
 (internal/controller/shared_services.go).
 */
module SharedServices {
  import opened Options
  import opened Cluster
  import PlacementGate

  /** A Service spec; its selector names the box type, and `rest` the role and ports. */
  datatype ServiceSpec = ServiceSpec(boxType: string, rest: string)

  datatype Service = Service(key: Key, spec: ServiceSpec)

  datatype Scope = Scope(ns: string, boxType: string)

  function ScopeOf(s: Service): Scope {
    Scope(s.key.ns, s.spec.boxType)
  }

  /** One component of an installation: its resolution or validation failed, or it plans a Service. */
  datatype Event = Failure | Plan(service: Service)

  datatype Installation = Installation(scope: Scope, deleting: bool, resolved: bool, events: seq<Event>)

  // ---- What a listing plans ---------------------------------------------------------------------

  function PlannedIn(inst: Installation, n: nat): set<Service>
    requires n <= |inst.events|
  {
    set e | 0 <= e < n && inst.events[e].Plan? :: inst.events[e].service
  }

  predicate Planning(inst: Installation) {
    !inst.deleting && inst.resolved
  }

  /** Services planned by the first n installations. */
  function PlannedBy(listing: seq<Installation>, n: nat): set<Service>
    requires n <= |listing|
  {
    set i, e | 0 <= i < n && Planning(listing[i]) && 0 <= e < |listing[i].events| && listing[i].events[e].Plan?
      :: listing[i].events[e].service
  }

  function Plans(listing: seq<Installation>): set<Service> {
    PlannedBy(listing, |listing|)
  }

  /** Two plans for the key differ. */
  predicate Ambiguous(plans: set<Service>, key: Key) {
    exists a, b :: a in plans && b in plans && a.key == key && b.key == key && a.spec != b.spec
  }

  /** The one plan of an unambiguous key. */
  predicate Agreed(plans: set<Service>, s: Service) {
    s in plans && !Ambiguous(plans, s.key)
  }

  /** The installation itself could not be planned completely. */
  predicate Faulty(inst: Installation) {
    !inst.deleting && (!inst.resolved || exists e :: 0 <= e < |inst.events| && inst.events[e].Failure?)
  }

  /** A plan of the installation comes after a differing plan for its key, earlier here or in the plans before. */
  ghost predicate OvertakenIn(inst: Installation, plans: set<Service>, e: nat)
    requires e < |inst.events|
  {
    inst.events[e].Plan? && Ambiguous(plans + PlannedIn(inst, e + 1), inst.events[e].service.key)
  }

  ghost predicate Protects(listing: seq<Installation>, i: nat)
    requires i < |listing|
  {
    || Faulty(listing[i])
    || (Planning(listing[i])
        && exists e: nat :: e < |listing[i].events| && OvertakenIn(listing[i], PlannedBy(listing, i), e))
  }

  /** Planning the first n installations protects the scope from pruning. */
  ghost predicate ProtectedBy(listing: seq<Installation>, n: nat, scope: Scope) {
    exists i: nat :: i < n && i < |listing| && listing[i].scope == scope && Protects(listing, i)
  }

  ghost predicate Protected(listing: seq<Installation>, scope: Scope) {
    ProtectedBy(listing, |listing|, scope)
  }

  /** One of the first n installations keeps the scope alive. */
  ghost predicate LiveBy(listing: seq<Installation>, n: nat, scope: Scope) {
    exists i :: 0 <= i < n && i < |listing| && listing[i].scope == scope && !listing[i].deleting
  }

  ghost predicate Live(listing: seq<Installation>, scope: Scope) {
    LiveBy(listing, |listing|, scope)
  }

  lemma ScopeGrows(listing: seq<Installation>, i: nat, s: Scope)
    requires i < |listing|
    ensures ProtectedBy(listing, i + 1, s) <==>
              ProtectedBy(listing, i, s) || (listing[i].scope == s && Protects(listing, i))
    ensures LiveBy(listing, i + 1, s) <==> LiveBy(listing, i, s) || (listing[i].scope == s && !listing[i].deleting)
  {
    if j: nat :| j < i + 1 && j < |listing| && listing[j].scope == s && Protects(listing, j) && j != i {
      assert ProtectedBy(listing, i, s);
    }
    if j: nat :| j < i + 1 && j < |listing| && listing[j].scope == s && !listing[j].deleting && j != i {
      assert LiveBy(listing, i, s);
    }
  }

  /** The two sets hold the protected and the live scopes of the first n installations. */
  ghost predicate Scoped(listing: seq<Installation>, n: nat, protectedScopes: set<Scope>, scopes: set<Scope>) {
    forall s :: (s in protectedScopes <==> ProtectedBy(listing, n, s)) && (s in scopes <==> LiveBy(listing, n, s))
  }

  lemma ScopesGrow(listing: seq<Installation>, i: nat, protectedScopes: set<Scope>, scopes: set<Scope>)
    requires i < |listing| && Scoped(listing, i, protectedScopes, scopes)
    ensures Scoped(listing, i + 1, protectedScopes + (if Protects(listing, i) then {listing[i].scope} else {}),
                   scopes + (if !listing[i].deleting then {listing[i].scope} else {}))
  {
    forall s { ScopeGrows(listing, i, s); }
  }

  // ---- The planning loop ------------------------------------------------------------------------

  /** The maps hold the agreed plans and the ambiguous keys of a set of plans. */
  ghost predicate Sifted(plans: set<Service>, desired: map<Key, Service>, blocked: set<Key>) {
    && (forall k :: k in blocked <==> Ambiguous(plans, k))
    && (forall k :: k in desired ==> Agreed(plans, desired[k]) && desired[k].key == k)
    && (forall s :: Agreed(plans, s) ==> s.key in desired)
  }

  predicate Differs(plans: set<Service>, s: Service) {
    exists p :: p in plans && p.key == s.key && p.spec != s.spec
  }

  lemma AmbiguityGrows(plans: set<Service>, s: Service, key: Key)
    ensures Ambiguous(plans + {s}, key) <==> Ambiguous(plans, key) || (key == s.key && Differs(plans, s))
  {
    var more := plans + {s};
    if a, b :| a in plans && b in plans && a.key == key && b.key == key && a.spec != b.spec {
      assert a in more && b in more;
    }
    if p :| p in plans && p.key == s.key && p.spec != s.spec {
      assert p in more && s in more;
    }
    if a, b :| a in more && b in more && a.key == key && b.key == key && a.spec != b.spec {
      assert a == s ==> b in plans;
      assert b == s ==> a in plans;
    }
  }

  /** A plan differs from what is agreed on exactly when it differs from some plan. */
  lemma DiffersFromAgreed(plans: set<Service>, desired: map<Key, Service>, blocked: set<Key>, s: Service)
    requires Sifted(plans, desired, blocked) && s.key !in blocked
    ensures Differs(plans, s) <==> s.key in desired && desired[s.key].spec != s.spec
  {
    if Differs(plans, s) {
      var p :| p in plans && p.key == s.key && p.spec != s.spec;
      assert Agreed(plans, p);
    }
  }

  /** One more plan for a key nobody disputes. */
  lemma SortAgreed(plans: set<Service>, desired: map<Key, Service>, blocked: set<Key>, s: Service)
    requires Sifted(plans, desired, blocked) && s.key !in blocked && !Differs(plans, s)
    ensures Sifted(plans + {s}, desired[s.key := s], blocked)
  {
    forall k ensures Ambiguous(plans + {s}, k) <==> Ambiguous(plans, k) {
      AmbiguityGrows(plans, s, k);
    }
    forall p | Agreed(plans + {s}, p) && p != s ensures p.key in desired {
      assert Agreed(plans, p);
    }
  }

  /** One more plan for a key that is, or thereby becomes, ambiguous. */
  lemma SortDisputed(plans: set<Service>, desired: map<Key, Service>, blocked: set<Key>, s: Service)
    requires Sifted(plans, desired, blocked) && (s.key in blocked || Differs(plans, s))
    ensures Sifted(plans + {s}, desired - {s.key}, blocked + {s.key})
  {
    forall k ensures Ambiguous(plans + {s}, k) <==> Ambiguous(plans, k) || k == s.key {
      AmbiguityGrows(plans, s, k);
    }
    forall p | Agreed(plans + {s}, p) ensures p.key in desired - {s.key} {
      assert p.key != s.key && Agreed(plans, p);
    }
  }

  method PlanService(service: Service, ghost plans: set<Service>, before: map<Key, Service>, ambiguous: set<Key>)
    returns (desired: map<Key, Service>, blocked: set<Key>, failed: bool)
    requires Sifted(plans, before, ambiguous)
    ensures Sifted(plans + {service}, desired, blocked)
    ensures failed <==> Ambiguous(plans + {service}, service.key)
  {
    desired, blocked := before, ambiguous;
    AmbiguityGrows(plans, service, service.key);
    if service.key in blocked {
      SortDisputed(plans, before, ambiguous, service);
      assert desired - {service.key} == desired && blocked + {service.key} == blocked;
      return desired, blocked, true;
    }
    DiffersFromAgreed(plans, before, ambiguous, service);
    if service.key in desired && desired[service.key].spec != service.spec {
      SortDisputed(plans, before, ambiguous, service);
      desired := desired - {service.key};
      blocked := blocked + {service.key};
      return desired, blocked, true;
    }
    SortAgreed(plans, before, ambiguous, service);
    desired := desired[service.key := service];
    failed := false;
  }

  method PlanInstallation(inst: Installation, ghost plans: set<Service>, before: map<Key, Service>, ambiguous: set<Key>)
    returns (desired: map<Key, Service>, blocked: set<Key>, failed: bool)
    requires Sifted(plans, before, ambiguous)
    ensures Sifted(plans + PlannedIn(inst, |inst.events|), desired, blocked)
    ensures failed <==> FailsBy(inst, plans, |inst.events|)
  {
    desired, blocked, failed := before, ambiguous, false;
    ghost var seen := plans;
    for e := 0 to |inst.events|
      invariant seen == plans + PlannedIn(inst, e) && Sifted(seen, desired, blocked)
      invariant failed <==> FailsBy(inst, plans, e)
    {
      FailsStep(inst, plans, e);
      match inst.events[e] {
        case Failure => failed := true;
        case Plan(service) =>
          var disputed;
          desired, blocked, disputed := PlanService(service, seen, desired, blocked);
          failed := failed || disputed;
          seen := seen + {service};
      }
    }
  }

  lemma FailsStep(inst: Installation, plans: set<Service>, e: nat)
    requires e < |inst.events|
    ensures inst.events[e].Failure?
            ==> plans + PlannedIn(inst, e + 1) == plans + PlannedIn(inst, e) && FailsBy(inst, plans, e + 1)
    ensures inst.events[e].Plan? ==>
              var after := plans + PlannedIn(inst, e) + {inst.events[e].service};
              plans + PlannedIn(inst, e + 1) == after
              && (FailsBy(inst, plans, e + 1)
                  <==> FailsBy(inst, plans, e) || Ambiguous(after, inst.events[e].service.key))
  {
    PlannedGrows(inst, e);
    FailsByGrows(inst, plans, e);
  }

  lemma FailsByGrows(inst: Installation, plans: set<Service>, n: nat)
    requires n < |inst.events|
    ensures FailsBy(inst, plans, n + 1) <==> FailsBy(inst, plans, n) || Fails(inst, plans, n)
  {
    if e: nat :| e < n + 1 && Fails(inst, plans, e) {
      assert e < n || e == n;
    }
  }

  ghost predicate Fails(inst: Installation, plans: set<Service>, e: nat)
    requires e < |inst.events|
  {
    inst.events[e].Failure? || OvertakenIn(inst, plans, e)
  }

  /** One of the first n components fails, or plans after a differing plan. */
  ghost predicate FailsBy(inst: Installation, plans: set<Service>, n: nat)
    requires n <= |inst.events|
  {
    exists e: nat :: e < n && Fails(inst, plans, e)
  }

  lemma PlannedGrows(inst: Installation, e: nat)
    requires e < |inst.events|
    ensures PlannedIn(inst, e + 1) == PlannedIn(inst, e) + if inst.events[e].Plan? then {inst.events[e].service} else {}
  {
  }

  lemma PlannedByGrows(listing: seq<Installation>, i: nat)
    requires i < |listing|
    ensures PlannedBy(listing, i + 1)
         == PlannedBy(listing, i) + if Planning(listing[i]) then PlannedIn(listing[i], |listing[i].events|) else {}
  {
    var inst := listing[i];
    forall s | s in PlannedBy(listing, i + 1)
      ensures s in PlannedBy(listing, i) || (Planning(inst) && s in PlannedIn(inst, |inst.events|))
    {
      var j, e :| 0 <= j < i + 1 && Planning(listing[j]) && 0 <= e < |listing[j].events| && listing[j].events[e].Plan?
                  && listing[j].events[e].service == s;
      if j < i {
        assert s in PlannedBy(listing, i);
      }
    }
    if Planning(inst) {
      forall s | s in PlannedIn(inst, |inst.events|) ensures s in PlannedBy(listing, i + 1) {
        var e :| 0 <= e < |inst.events| && inst.events[e].Plan? && inst.events[e].service == s;
        assert listing[i].events[e].service == s;
      }
    }
  }

  lemma ProtectsMeansFails(listing: seq<Installation>, i: nat)
    requires i < |listing| && Planning(listing[i])
    ensures Protects(listing, i) <==> FailsBy(listing[i], PlannedBy(listing, i), |listing[i].events|)
  {
    var inst, plans := listing[i], PlannedBy(listing, i);
    if e: nat :| e < |inst.events| && Fails(inst, plans, e) {
      assert inst.events[e].Failure? || OvertakenIn(inst, plans, e);
    }
    if e: nat :| e < |inst.events| && (inst.events[e].Failure? || OvertakenIn(inst, plans, e)) {
      assert Fails(inst, plans, e);
    }
  }

  /** One turn of the planning loop. */
  method PlanNext(listing: seq<Installation>, i: nat, desired: map<Key, Service>, blocked: set<Key>)
    returns (desired': map<Key, Service>, blocked': set<Key>, failed: bool)
    requires i < |listing| && Sifted(PlannedBy(listing, i), desired, blocked)
    ensures Sifted(PlannedBy(listing, i + 1), desired', blocked')
    ensures failed <==> Protects(listing, i)
  {
    var inst := listing[i];
    PlannedByGrows(listing, i);
    desired', blocked' := desired, blocked;
    if inst.deleting {
      return desired, blocked, false;
    }
    if !inst.resolved {
      return desired, blocked, true;
    }
    desired', blocked', failed := PlanInstallation(inst, PlannedBy(listing, i), desired, blocked);
    ProtectsMeansFails(listing, i);
  }

  /**
   The planning half of reconcileSharedServices: `desired` and `blocked` depend only on what is planned, whatever
   the order of the listing; `protectedScopes` are the scopes that fail, or plan after a differing plan.
   */
  method PlanServices(listing: seq<Installation>)
    returns (desired: map<Key, Service>, blocked: set<Key>, protectedScopes: set<Scope>, scopes: set<Scope>)
    ensures Sifted(Plans(listing), desired, blocked)
    ensures forall s :: s in protectedScopes <==> Protected(listing, s)
    ensures forall s :: s in scopes <==> Live(listing, s)
  {
    desired, blocked, protectedScopes, scopes := map[], {}, {}, {};
    assert PlannedBy(listing, 0) == {};
    for i := 0 to |listing|
      invariant Sifted(PlannedBy(listing, i), desired, blocked)
      invariant Scoped(listing, i, protectedScopes, scopes)
    {
      ScopesGrow(listing, i, protectedScopes, scopes);
      if !listing[i].deleting {
        scopes := scopes + {listing[i].scope};
      }
      var failed;
      desired, blocked, failed := PlanNext(listing, i, desired, blocked);
      if failed {
        protectedScopes := protectedScopes + {listing[i].scope};
      }
    }
  }

  // ---- Scopes with undrained producers ------------------------------------------------------------

  /** The roles a box places: standalone operators, and sidecars of the dataplane. */
  datatype Box = Box(operators: set<string>, sidecars: set<string>)

  datatype Producer = Producer(boxType: string, template: Template)

  /** Some producer of the box type runs a role of the box the other way. */
  ghost predicate Undrained(producers: seq<Producer>, boxType: string, box: Box) {
    exists i, name :: 0 <= i < |producers| && producers[i].boxType == boxType && name in box.operators + box.sidecars
                      && PlacementGate.Incompatible(producers[i].template, name, name in box.sidecars)
  }

  /** The scope waits for old producers, or its namespace could not be read. */
  ghost predicate Waits(boxes: map<string, Box>, inventory: string -> Option<seq<Producer>>, scope: Scope) {
    && scope.boxType in boxes
    && boxes[scope.boxType].operators + boxes[scope.boxType].sidecars != {}
    && (inventory(scope.ns).None? || Undrained(inventory(scope.ns).value, scope.boxType, boxes[scope.boxType]))
  }

  /** The template runs a role of the box the other way: an operator as a sidecar, or a sidecar on its own. */
  ghost predicate RunsOtherWay(box: Box, t: Template) {
    (exists name :: name in box.operators - box.sidecars && name in t.members) || t.component in box.sidecars
  }

  /** A scope waits exactly when its box places roles and the producers are unknown or one runs a role the other way. */
  lemma {:induction false} WaitsExactly(boxes: map<string, Box>, inventory: string -> Option<seq<Producer>>,
                                        scope: Scope)
    ensures Waits(boxes, inventory, scope) <==>
              && scope.boxType in boxes && (boxes[scope.boxType].operators != {} || boxes[scope.boxType].sidecars != {})
              && match inventory(scope.ns)
                 case None => true
                 case Some(producers) =>
                   exists p :: p in producers && p.boxType == scope.boxType
                               && RunsOtherWay(boxes[scope.boxType], p.template)
  {
    if scope.boxType in boxes && inventory(scope.ns).Some? {
      UndrainedExactly(inventory(scope.ns).value, scope.boxType, boxes[scope.boxType]);
    }
  }

  lemma UndrainedExactly(producers: seq<Producer>, boxType: string, box: Box)
    ensures Undrained(producers, boxType, box) <==>
              exists p :: p in producers && p.boxType == boxType && RunsOtherWay(box, p.template)
  {
    if p :| p in producers && p.boxType == boxType && RunsOtherWay(box, p.template) {
      var i :| 0 <= i < |producers| && producers[i] == p;
      if p.template.component in box.sidecars {
        assert p.template.component in box.operators + box.sidecars;
      } else {
        var name :| name in box.operators - box.sidecars && name in p.template.members;
        assert name in box.operators + box.sidecars;
      }
    }
  }

  method FindUndrained(producers: seq<Producer>, boxType: string, box: Box) returns (found: bool)
    ensures found <==> Undrained(producers, boxType, box)
  {
    var names := box.operators + box.sidecars;
    for i := 0 to |producers|
      invariant forall j, name :: 0 <= j < i && producers[j].boxType == boxType && name in names
                                  ==> !PlacementGate.Incompatible(producers[j].template, name, name in box.sidecars)
    {
      if producers[i].boxType == boxType {
        if exists name :: name in names
            && PlacementGate.Incompatible(producers[i].template, name, name in box.sidecars) {
          return true;
        }
      }
    }
    found := false;
  }

  /** blockedSharedServicePlacementScopes reads every namespace at most once. */
  method BlockedScopes(boxes: map<string, Box>, inventory: string -> Option<seq<Producer>>, scopes: set<Scope>)
    returns (blocked: set<Scope>)
    ensures forall s :: s in blocked <==> s in scopes && Waits(boxes, inventory, s)
  {
    blocked := {};
    var byNamespace: map<string, Option<seq<Producer>>> := map[];
    var remaining := scopes;
    while remaining != {}
      invariant remaining <= scopes
      invariant forall ns :: ns in byNamespace ==> byNamespace[ns] == inventory(ns)
      invariant forall s :: s in blocked <==> s in scopes - remaining && Waits(boxes, inventory, s)
      decreases |remaining|
    {
      var scope :| scope in remaining;
      remaining := remaining - {scope};
      if scope.boxType !in boxes {
        continue;
      }
      var box := boxes[scope.boxType];
      if box.operators == {} && box.sidecars == {} {
        continue;
      }
      if scope.ns !in byNamespace {
        byNamespace := byNamespace[scope.ns := inventory(scope.ns)];
      }
      var live := byNamespace[scope.ns];
      assert box.operators + box.sidecars != {} by {
        if name :| name in box.operators {
          assert name in box.operators + box.sidecars;
        }
        if name :| name in box.sidecars {
          assert name in box.operators + box.sidecars;
        }
      }
      if live.None? {
        blocked := blocked + {scope};
        continue;
      }
      var undrained := FindUndrained(live.value, scope.boxType, box);
      if undrained {
        blocked := blocked + {scope};
      }
    }
  }

  // ---- Writes and deletions -----------------------------------------------------------------------

  /** A Service with the shared label, as listed before pruning. */
  datatype Existing = Existing(key: Key, boxType: string, controlled: bool)

  /** A live scope that has to wait. */
  ghost predicate Held(listing: seq<Installation>, boxes: map<string, Box>, inventory: string -> Option<seq<Producer>>,
                       scope: Scope) {
    Live(listing, scope) && Waits(boxes, inventory, scope)
  }

  /** Agreed on, and its scope does not wait. */
  ghost predicate Writable(listing: seq<Installation>, boxes: map<string, Box>,
                           inventory: string -> Option<seq<Producer>>, s: Service) {
    Agreed(Plans(listing), s) && !Held(listing, boxes, inventory, ScopeOf(s))
  }

  /** Nothing of the scope is pruned: planning protects it, it waits, or one of its writes failed. */
  ghost predicate Shielded(listing: seq<Installation>, boxes: map<string, Box>,
                           inventory: string -> Option<seq<Producer>>,
                           applies: Service -> bool, scope: Scope) {
    || Protected(listing, scope)
    || Held(listing, boxes, inventory, scope)
    || exists s :: s in Plans(listing) && ScopeOf(s) == scope && Writable(listing, boxes, inventory, s) && !applies(s)
  }

  /** Ours, planned by nobody, and its scope is not shielded. */
  ghost predicate Prunable(listing: seq<Installation>, boxes: map<string, Box>,
                           inventory: string -> Option<seq<Producer>>,
                           applies: Service -> bool, x: Existing) {
    && x.controlled
    && (forall s :: s in Plans(listing) ==> s.key != x.key)
    && !Shielded(listing, boxes, inventory, applies, Scope(x.key.ns, x.boxType))
  }

  /** No desired and no ambiguous key is a key nobody plans. */
  lemma UnplannedKeys(plans: set<Service>, desired: map<Key, Service>, blocked: set<Key>, key: Key)
    requires Sifted(plans, desired, blocked)
    ensures key !in desired && key !in blocked <==> forall s :: s in plans ==> s.key != key
  {
    if s :| s in plans && s.key == key {
      assert Ambiguous(plans, key) || Agreed(plans, s);
    }
  }

  /** Attempt every desired Service whose scope is not blocked; the outcomes are the API server's. */
  method WriteServices(desired: map<Key, Service>, migrationBlocked: set<Scope>, applies: Service -> bool)
    returns (writes: seq<Service>, failed: set<Scope>)
    requires forall k :: k in desired ==> desired[k].key == k
    ensures forall i, j :: 0 <= i < j < |writes| ==> writes[i] != writes[j]
    ensures forall s :: s in writes <==> s.key in desired && desired[s.key] == s && ScopeOf(s) !in migrationBlocked
    ensures forall c :: c in failed <==> exists s :: s in writes && ScopeOf(s) == c && !applies(s)
  {
    writes, failed := [], {};
    var remaining := desired.Keys;
    while remaining != {}
      invariant remaining <= desired.Keys
      invariant forall i, j :: 0 <= i < j < |writes| ==> writes[i] != writes[j]
      invariant forall s :: s in writes
                  <==> s.key in desired.Keys - remaining && desired[s.key] == s && ScopeOf(s) !in migrationBlocked
      invariant forall c :: c in failed <==> exists s :: s in writes && ScopeOf(s) == c && !applies(s)
      decreases |remaining|
    {
      var key :| key in remaining;
      remaining := remaining - {key};
      var service := desired[key];
      if ScopeOf(service) !in migrationBlocked {
        writes := writes + [service];
        if !applies(service) {
          failed := failed + {ScopeOf(service)};
        }
      }
    }
  }

  /** The pruning loop. */
  method PruneServices(existing: seq<Existing>, desired: map<Key, Service>, blocked: set<Key>,
                       protectedScopes: set<Scope>)
    returns (deletes: seq<Existing>)
    ensures forall x :: x in deletes <==> x in existing && x.controlled && x.key !in desired && x.key !in blocked
                                          && Scope(x.key.ns, x.boxType) !in protectedScopes
  {
    deletes := [];
    for i := 0 to |existing|
      invariant forall x :: x in deletes
                  <==> x in existing[..i] && x.controlled && x.key !in desired && x.key !in blocked
                       && Scope(x.key.ns, x.boxType) !in protectedScopes
    {
      var x := existing[i];
      assert existing[..i + 1] == existing[..i] + [x];
      if x.key in desired || Scope(x.key.ns, x.boxType) in protectedScopes || x.key in blocked || !x.controlled {
        continue;
      }
      deletes := deletes + [x];
    }
    assert existing[..|existing|] == existing;
  }

  /**
   reconcileSharedServices while the stop switch is off: every agreed Service of a scope that need not wait is
   written once, ambiguous keys and waiting scopes are not touched, and exactly the prunable Services go.
   */
  method ReconcileSharedServices(listing: seq<Installation>, boxes: map<string, Box>,
                                 inventory: string -> Option<seq<Producer>>,
                                 applies: Service -> bool, existing: seq<Existing>)
    returns (writes: seq<Service>, deletes: seq<Existing>)
    ensures forall i, j :: 0 <= i < j < |writes| ==> writes[i] != writes[j]
    ensures forall s :: s in writes <==> Writable(listing, boxes, inventory, s)
    ensures forall x :: x in deletes <==> x in existing && Prunable(listing, boxes, inventory, applies, x)
  {
    var desired, blocked, protectedScopes, scopes := PlanServices(listing);
    var migrationBlocked := BlockedScopes(boxes, inventory, scopes);
    var failed;
    writes, failed := WriteServices(desired, migrationBlocked, applies);
    WrittenAreWritable(listing, boxes, inventory, desired, blocked, migrationBlocked, writes);
    deletes := PruneServices(existing, desired, blocked, protectedScopes + migrationBlocked + failed);
    forall x
      ensures Prunable(listing, boxes, inventory, applies, x)
         <==> x.controlled && x.key !in desired && x.key !in blocked
              && Scope(x.key.ns, x.boxType) !in protectedScopes + migrationBlocked + failed
    {
      UnplannedKeys(Plans(listing), desired, blocked, x.key);
    }
  }

  lemma {:induction false} WrittenAreWritable(listing: seq<Installation>, boxes: map<string, Box>,
                                              inventory: string -> Option<seq<Producer>>, desired: map<Key, Service>,
                                              blocked: set<Key>, migrationBlocked: set<Scope>, writes: seq<Service>)
    requires Sifted(Plans(listing), desired, blocked)
    requires forall c :: c in migrationBlocked <==> Held(listing, boxes, inventory, c)
    requires forall s :: s in writes <==> s.key in desired && desired[s.key] == s && ScopeOf(s) !in migrationBlocked
    ensures forall s :: s in writes <==> Writable(listing, boxes, inventory, s)
  {
    forall s | Agreed(Plans(listing), s) ensures desired[s.key] == s {
      assert desired[s.key] in Plans(listing);
    }
  }

  // ---- What the order of the listing cannot change --------------------------------------------------

  /** Two listings of the same installations, in any order, choose the same Services and the same ambiguous keys. */
  lemma OrderDoesNotChoose(one: seq<Installation>, two: seq<Installation>, d1: map<Key, Service>, b1: set<Key>,
                           d2: map<Key, Service>, b2: set<Key>)
    requires forall x :: x in one <==> x in two
    requires Sifted(Plans(one), d1, b1) && Sifted(Plans(two), d2, b2)
    ensures d1 == d2 && b1 == b2
  {
    SameInstallationsPlanTheSame(one, two);
    SameInstallationsPlanTheSame(two, one);
    forall k | k in d1 || k in d2 ensures k in d1 && k in d2 && d1[k] == d2[k] {
      var s := if k in d1 then d1[k] else d2[k];
      assert Agreed(Plans(one), s) && s.key == k;
      assert Agreed(Plans(one), d1[k]) && Agreed(Plans(one), d2[k]);
    }
  }

  lemma SameInstallationsPlanTheSame(one: seq<Installation>, two: seq<Installation>)
    requires forall x :: x in one ==> x in two
    ensures Plans(one) <= Plans(two)
  {
    forall s | s in Plans(one) ensures s in Plans(two) {
      var i, e :| 0 <= i < |one| && Planning(one[i]) && 0 <= e < |one[i].events| && one[i].events[e].Plan?
                  && one[i].events[e].service == s;
      assert one[i] in two;
      var j :| 0 <= j < |two| && two[j] == one[i];
      assert two[j].events[e].service == s;
    }
  }

  // ---- How protection depends on the listing ------------------------------------------------------

  /** The e-th component of the i-th installation plans the Service. */
  predicate PlansAt(listing: seq<Installation>, i: nat, e: nat, s: Service) {
    i < |listing| && Planning(listing[i]) && e < |listing[i].events| && listing[i].events[e] == Plan(s)
  }

  ghost predicate PlannedFor(listing: seq<Installation>, scope: Scope, s: Service) {
    exists i: nat, e: nat :: PlansAt(listing, i, e, s) && listing[i].scope == scope
  }

  predicate ScopeFaulty(listing: seq<Installation>, scope: Scope) {
    exists i :: 0 <= i < |listing| && listing[i].scope == scope && Faulty(listing[i])
  }

  /** The scope's own plans differ for some key. */
  ghost predicate SelfAmbiguous(listing: seq<Installation>, scope: Scope) {
    exists a, b :: PlannedFor(listing, scope, a) && PlannedFor(listing, scope, b) && a.key == b.key && a.spec != b.spec
  }

  /** The scope plans a key that is ambiguous in the whole listing. */
  ghost predicate PlansAmbiguous(listing: seq<Installation>, scope: Scope) {
    exists s :: PlannedFor(listing, scope, s) && Ambiguous(Plans(listing), s.key)
  }

  lemma PlannedSomewhere(listing: seq<Installation>, s: Service)
    requires s in Plans(listing)
    ensures exists i: nat, e: nat :: PlansAt(listing, i, e, s)
  {
    var i, e :| 0 <= i < |listing| && Planning(listing[i]) && 0 <= e < |listing[i].events| && listing[i].events[e].Plan?
                && listing[i].events[e].service == s;
    assert PlansAt(listing, i, e, s);
  }

  /** Of two differing plans for a key, the later one protects its scope. */
  lemma LaterPlanProtects(listing: seq<Installation>, i: nat, e: nat, a: Service, j: nat, d: nat, b: Service)
    requires PlansAt(listing, i, e, a) && PlansAt(listing, j, d, b) && (i < j || (i == j && e < d))
    requires a.key == b.key && a.spec != b.spec
    ensures Protected(listing, listing[j].scope)
  {
    var plans := PlannedBy(listing, j) + PlannedIn(listing[j], d + 1);
    assert listing[j].events[d].service == b && b in PlannedIn(listing[j], d + 1);
    assert listing[i].events[e].service == a;
    assert a in plans && b in plans;
    assert OvertakenIn(listing[j], PlannedBy(listing, j), d);
    assert Protects(listing, j);
  }

  lemma SelfAmbiguityProtects(listing: seq<Installation>, scope: Scope)
    requires SelfAmbiguous(listing, scope)
    ensures Protected(listing, scope)
  {
    var a, b :| PlannedFor(listing, scope, a) && PlannedFor(listing, scope, b) && a.key == b.key && a.spec != b.spec;
    var i: nat, e: nat :| PlansAt(listing, i, e, a) && listing[i].scope == scope;
    var j: nat, d: nat :| PlansAt(listing, j, d, b) && listing[j].scope == scope;
    if i < j || (i == j && e < d) {
      LaterPlanProtects(listing, i, e, a, j, d, b);
    } else {
      LaterPlanProtects(listing, j, d, b, i, e, a);
    }
  }

  /** Plans seen before a place are planned at an earlier place. */
  lemma SeenEarlier(listing: seq<Installation>, i: nat, e: nat, a: Service) returns (j: nat, d: nat)
    requires i < |listing| && Planning(listing[i]) && e < |listing[i].events|
    requires a in PlannedBy(listing, i) + PlannedIn(listing[i], e + 1)
    ensures PlansAt(listing, j, d, a) && (j < i || (j == i && d <= e))
  {
    if a in PlannedIn(listing[i], e + 1) {
      var c :| 0 <= c < e + 1 && listing[i].events[c].Plan? && listing[i].events[c].service == a;
      j, d := i, c;
    } else {
      var k, c :| 0 <= k < i && Planning(listing[k]) && 0 <= c < |listing[k].events| && listing[k].events[c].Plan?
                  && listing[k].events[c].service == a;
      j, d := k, c;
    }
  }

  lemma PlannedAreIncluded(listing: seq<Installation>, i: nat, e: nat, s: Service)
    requires PlansAt(listing, i, e, s)
    ensures s in Plans(listing)
  {
    assert listing[i].events[e].service == s;
  }

  /** A scope protected without being faulty has a plan that differs from an earlier one. */
  lemma ProtectionHasCause(listing: seq<Installation>, scope: Scope)
    returns (i: nat, e: nat, s: Service, j: nat, d: nat, a: Service)
    requires Protected(listing, scope) && !ScopeFaulty(listing, scope)
    ensures PlansAt(listing, i, e, s) && listing[i].scope == scope
    ensures PlansAt(listing, j, d, a) && (j < i || (j == i && d < e)) && a.key == s.key && a.spec != s.spec
  {
    i :| i < |listing| && listing[i].scope == scope && Protects(listing, i);
    assert !Faulty(listing[i]);
    e :| e < |listing[i].events| && OvertakenIn(listing[i], PlannedBy(listing, i), e);
    s := listing[i].events[e].service;
    j, d, a := OvertakenHasCause(listing, i, e, s);
  }

  lemma AmbiguousDiffers(plans: set<Service>, s: Service)
    requires Ambiguous(plans, s.key)
    ensures Differs(plans, s)
  {
    var x, y :| x in plans && y in plans && x.key == s.key && y.key == s.key && x.spec != y.spec;
    assert x.spec != s.spec || y.spec != s.spec;
  }

  lemma OvertakenHasCause(listing: seq<Installation>, i: nat, e: nat, s: Service) returns (j: nat, d: nat, a: Service)
    requires PlansAt(listing, i, e, s)
    requires Ambiguous(PlannedBy(listing, i) + PlannedIn(listing[i], e + 1), s.key)
    ensures PlansAt(listing, j, d, a) && (j < i || (j == i && d < e)) && a.key == s.key && a.spec != s.spec
  {
    var plans := PlannedBy(listing, i) + PlannedIn(listing[i], e + 1);
    AmbiguousDiffers(plans, s);
    a :| a in plans && a.key == s.key && a.spec != s.spec;
    j, d := SeenEarlier(listing, i, e, a);
  }

  /**
   In every order: faults and differing plans of its own protect a scope; only they or a dispute with another
   scope can.
   */
  lemma ProtectionBounds(listing: seq<Installation>, scope: Scope)
    ensures ScopeFaulty(listing, scope) || SelfAmbiguous(listing, scope) ==> Protected(listing, scope)
    ensures Protected(listing, scope) ==> ScopeFaulty(listing, scope) || PlansAmbiguous(listing, scope)
  {
    if ScopeFaulty(listing, scope) {
      var i :| 0 <= i < |listing| && listing[i].scope == scope && Faulty(listing[i]);
      assert Protects(listing, i);
    } else if SelfAmbiguous(listing, scope) {
      SelfAmbiguityProtects(listing, scope);
    }
    if Protected(listing, scope) && !ScopeFaulty(listing, scope) {
      var i, e, s, j, d, a := ProtectionHasCause(listing, scope);
      PlannedAreIncluded(listing, i, e, s);
      PlannedAreIncluded(listing, j, d, a);
    }
  }

  /** Listed first, a scope is protected by its own faults and differing plans only. */
  lemma ListedFirst(listing: seq<Installation>, scope: Scope, n: nat)
    requires n <= |listing| && forall i :: 0 <= i < |listing| ==> (listing[i].scope == scope <==> i < n)
    ensures Protected(listing, scope) <==> ScopeFaulty(listing, scope) || SelfAmbiguous(listing, scope)
  {
    ProtectionBounds(listing, scope);
    if Protected(listing, scope) && !ScopeFaulty(listing, scope) {
      var i, e, s, j, d, a := ProtectionHasCause(listing, scope);
      assert PlannedFor(listing, scope, s) && PlannedFor(listing, scope, a);
    }
  }

  /** Listed last, it is protected by every dispute it takes part in. */
  lemma ListedLast(listing: seq<Installation>, scope: Scope, n: nat)
    requires n <= |listing| && forall i :: 0 <= i < |listing| ==> (listing[i].scope == scope <==> n <= i)
    ensures Protected(listing, scope) <==> ScopeFaulty(listing, scope) || PlansAmbiguous(listing, scope)
  {
    ProtectionBounds(listing, scope);
    if PlansAmbiguous(listing, scope) {
      var s :| PlannedFor(listing, scope, s) && Ambiguous(Plans(listing), s.key);
      var x, y :| x in Plans(listing) && y in Plans(listing) && x.key == s.key && y.key == s.key && x.spec != y.spec;
      var a := if x.spec != s.spec then x else y;
      DisputeProtectsLast(listing, scope, n, s, a);
    }
  }

  lemma DisputeProtectsLast(listing: seq<Installation>, scope: Scope, n: nat, s: Service, a: Service)
    requires n <= |listing| && forall i :: 0 <= i < |listing| ==> (listing[i].scope == scope <==> n <= i)
    requires PlannedFor(listing, scope, s) && a in Plans(listing) && a.key == s.key && a.spec != s.spec
    ensures Protected(listing, scope)
  {
    PlannedSomewhere(listing, a);
    var j: nat, d: nat :| PlansAt(listing, j, d, a);
    var i: nat, e: nat :| PlansAt(listing, i, e, s) && listing[i].scope == scope;
    if n <= j {
      assert PlannedFor(listing, scope, a) && SelfAmbiguous(listing, scope);
      ProtectionBounds(listing, scope);
    } else {
      LaterPlanProtects(listing, j, d, a, i, e, s);
    }
  }

  /** Two scopes in dispute: only the one listed second is protected, so which one depends on the listing. */
  lemma OrderDecidesProtection()
    ensures var key := Key("ns", "yanet-a-b-c");
            var a, b := Scope("ns", "a"), Scope("ns", "a-b");
            var x := Installation(a, false, true, [Plan(Service(key, ServiceSpec("a", "b-c")))]);
            var y := Installation(b, false, true, [Plan(Service(key, ServiceSpec("a-b", "c")))]);
            && Protected([x, y], b) && !Protected([x, y], a)
            && Protected([y, x], a) && !Protected([y, x], b)
  {
    var key := Key("ns", "yanet-a-b-c");
    var a, b := Scope("ns", "a"), Scope("ns", "a-b");
    var s, t := Service(key, ServiceSpec("a", "b-c")), Service(key, ServiceSpec("a-b", "c"));
    var x, y := Installation(a, false, true, [Plan(s)]), Installation(b, false, true, [Plan(t)]);
    DisputeOfTwo(x, y, s, t);
    DisputeOfTwo(y, x, t, s);
  }

  lemma DisputeOfTwo(x: Installation, y: Installation, s: Service, t: Service)
    requires Planning(x) && Planning(y) && x.events == [Plan(s)] && y.events == [Plan(t)]
    requires x.scope != y.scope && s.key == t.key && s.spec != t.spec
    ensures Protected([x, y], y.scope) && !Protected([x, y], x.scope)
  {
    var listing := [x, y];
    assert PlansAt(listing, 0, 0, s) && PlansAt(listing, 1, 0, t);
    LaterPlanProtects(listing, 0, 0, s, 1, 0, t);
    ListedFirst(listing, x.scope, 1);
  }

  // ---- Departed scopes ----------------------------------------------------------------------------

  /** Installations plan Services of their own scope. */
  predicate OwnPlans(listing: seq<Installation>) {
    forall i, e :: 0 <= i < |listing| && 0 <= e < |listing[i].events| && listing[i].events[e].Plan?
      ==> ScopeOf(listing[i].events[e].service) == listing[i].scope
  }

  /**
   Only live installations make a scope wait or protect it: once the last one is gone, the Services it alone
   planned are pruned, whether or not old producers have drained.
   */
  lemma {:induction false} DepartedScopesAreNotGated(listing: seq<Installation>, boxes: map<string, Box>,
                                                     inventory: string -> Option<seq<Producer>>,
                                                     applies: Service -> bool, x: Existing)
    requires OwnPlans(listing) && !Live(listing, Scope(x.key.ns, x.boxType))
    ensures Prunable(listing, boxes, inventory, applies, x)
            <==> x.controlled && forall s :: s in Plans(listing) ==> s.key != x.key
  {
    ProtectedAreLive(listing, Scope(x.key.ns, x.boxType));
    forall s | s in Plans(listing) ensures Live(listing, ScopeOf(s)) {
      PlannedAreLive(listing, s);
    }
  }

  lemma ProtectedAreLive(listing: seq<Installation>, scope: Scope)
    ensures Protected(listing, scope) ==> Live(listing, scope)
  {
    if i: nat :| i < |listing| && listing[i].scope == scope && Protects(listing, i) {
      assert !listing[i].deleting;
    }
  }

  lemma PlannedAreLive(listing: seq<Installation>, s: Service)
    requires OwnPlans(listing) && s in Plans(listing)
    ensures Live(listing, ScopeOf(s))
  {
    PlannedSomewhere(listing, s);
    var i: nat, e: nat :| PlansAt(listing, i, e, s);
    assert ScopeOf(listing[i].events[e].service) == listing[i].scope;
  }

  /** While producers drain, an installation keeps its Services; the same installation being deleted gives them up. */
  lemma {:induction false} DepartureGivesUpServices(inst: Installation, boxes: map<string, Box>,
                                                    inventory: string -> Option<seq<Producer>>,
                                                    applies: Service -> bool, x: Existing)
    requires inst.scope == Scope(x.key.ns, x.boxType) && !inst.deleting && x.controlled
    requires Waits(boxes, inventory, inst.scope)
    ensures !Prunable([inst], boxes, inventory, applies, x)
    ensures Prunable([inst.(deleting := true)], boxes, inventory, applies, x)
  {
    var left := [inst.(deleting := true)];
    assert [inst][0] == inst;
    assert Live([inst], inst.scope);
    ProtectedAreLive(left, inst.scope);
    assert forall s :: s !in Plans(left) by {
      forall s | s in Plans(left) ensures false {
        PlannedSomewhere(left, s);
      }
    }
  }

  /** A Pod still runs the role as a sidecar, the box wants it on its own, and the departing box loses its Service. */
  lemma UndrainedDepartureLosesService(stale: Template, name: string)
    requires name in stale.members
    ensures var x := Existing(Key("ns", name), "gw", true);
            var inst := Installation(Scope("ns", "gw"), true, true, []);
            var inventory := (ns: string) => Some([Producer("gw", stale)]);
            && Undrained([Producer("gw", stale)], "gw", Box({name}, {}))
            && Prunable([inst], map["gw" := Box({name}, {})], inventory, (s: Service) => true, x)
  {
    var inst := Installation(Scope("ns", "gw"), false, true, []);
    var inventory := (ns: string) => Some([Producer("gw", stale)]);
    var producers, box := [Producer("gw", stale)], Box({name}, {});
    assert Undrained(producers, "gw", box) by {
      assert producers[0].boxType == "gw" && name in box.operators + box.sidecars;
    }
    DepartureGivesUpServices(inst, map["gw" := box], inventory, (s: Service) => true,
                             Existing(Key("ns", name), "gw", true));
  }
}
