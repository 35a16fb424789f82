/** The broker control loop over the published classes and plans: relisting and cascading deletion. */
module Brokers {
  import opened Common
  import opened Catalog

  /** Every class and plan there is. */
  datatype Store = Store(classes: Shelf<ClassFixed, ClassFields>, plans: Shelf<PlanFixed, PlanFields>)

  ghost predicate Publishable(services: seq<BrokerService>) {
    services != [] && forall s :: s in services ==> Convertible(s)
  }

  function ClassesOf(services: seq<BrokerService>): seq<Class> {
    seq(|services|, i requires 0 <= i < |services| => ClassOf(services[i]))
  }

  /** A relist: all plans, then all classes, up to the first failure. */
  ghost function Relist(store: Store, broker: Name, services: seq<BrokerService>, refusedPlans: set<Name>, refusedClasses: set<Name>): (Store, bool) {
    if !Publishable(services) then (store, false)
    else
      var (plans, ok) := PutAll(store.plans, PlansOf(services), broker, false, refusedPlans);
      if !ok then (store.(plans := plans), false)
      else
        var (classes, ok') := PutAll(store.classes, ClassesOf(services), broker, true, refusedClasses);
        (Store(classes, plans), ok')
  }

  /** Whatever a relist does and however it ends, it removes nothing and leaves other brokers' classes as they are. */
  lemma RelistRespectsOthers(store: Store, broker: Name, services: seq<BrokerService>, refusedPlans: set<Name>, refusedClasses: set<Name>)
    ensures var s := Relist(store, broker, services, refusedPlans, refusedClasses).0;
      && Extends(store.classes, s.classes, broker, true)
      && Extends(store.plans, s.plans, broker, false)
  {
    PutAllExtends(store.plans, PlansOf(services), broker, false, refusedPlans);
    PutAllExtends(store.classes, ClassesOf(services), broker, true, refusedClasses);
  }

  /** Service `k` is the last one listed under its ID. */
  ghost predicate ListedLast(services: seq<BrokerService>, k: nat) {
    k < |services| && forall j :: k < j < |services| ==> services[j].id != services[k].id
  }

  ghost predicate ListedFirst(services: seq<BrokerService>, k: nat) {
    k < |services| && forall j :: 0 <= j < k ==> services[j].id != services[k].id
  }

  lemma {:induction false} LastClass(services: seq<BrokerService>, n: Name) returns (k: nat)
    requires LastOf(ClassesOf(services), n).Some?
    ensures ListedLast(services, k) && services[k].id == n && LastOf(ClassesOf(services), n) == Some(ClassOf(services[k]))
  {
    var init := services[..|services| - 1];
    assert ClassesOf(services)[..|services| - 1] == ClassesOf(init);
    if Last(services).id == n {
      k := |services| - 1;
    } else {
      k := LastClass(init, n);
    }
  }

  lemma {:induction false} FirstClass(services: seq<BrokerService>, n: Name) returns (k: nat)
    requires FirstOf(ClassesOf(services), n).Some?
    ensures ListedFirst(services, k) && services[k].id == n && FirstOf(ClassesOf(services), n) == Some(ClassOf(services[k]))
  {
    var init := services[..|services| - 1];
    assert ClassesOf(services)[..|services| - 1] == ClassesOf(init);
    if FirstOf(ClassesOf(init), n).Some? {
      k := FirstClass(init, n);
    } else {
      k := |services| - 1;
      forall j | 0 <= j < k ensures services[j].id != n {
        assert ClassesOf(init)[j] == ClassOf(services[j]);
        if services[j].id == n { FirstOfIsThere(ClassesOf(init), ClassOf(services[j])); }
      }
    }
  }

  lemma {:induction false} FirstOfIsThere<F(!new), M(!new)>(rs: seq<Resource<F, M>>, r: Resource<F, M>)
    requires r in rs
    ensures FirstOf(rs, r.name).Some?
  {
    if Last(rs) != r { FirstOfIsThere(rs[..|rs| - 1], r); }
  }

  /**
    After a successful relist every service is published: its class belongs to the broker and shows
    the service as it was listed last under that ID. A class that is new shows the name and the
    metadata of the service listed first; one that was there keeps its own.
   */
  lemma RelistPublishesClass(store: Store, broker: Name, services: seq<BrokerService>, refusedPlans: set<Name>, refusedClasses: set<Name>, i: nat)
    returns (k: nat, f: nat)
    requires Relist(store, broker, services, refusedPlans, refusedClasses).1 && i < |services|
    ensures ListedLast(services, k) && ListedFirst(services, f) && services[k].id == services[f].id == services[i].id
    ensures var s := Relist(store, broker, services, refusedPlans, refusedClasses).0;
      var n := services[i].id;
      && n in s.classes && s.classes[n].broker == broker && s.classes[n].externalID == n
      && ClassCurrent(s.classes[n].changing, services[k])
      && (if n in store.classes then s.classes[n].fixed == store.classes[n].fixed
          else ClassOriginal(s.classes[n].fixed, services[f]))
  {
    var n, rs := services[i].id, ClassesOf(services);
    assert rs[i] == ClassOf(services[i]);
    LastOfIsThere(rs, ClassOf(services[i]));
    FirstOfIsThere(rs, ClassOf(services[i]));
    LastOfName(rs, n);
    k := LastClass(services, n);
    f := FirstClass(services, n);
    assert services[k] in services && services[f] in services;
    ClassOfShows(services[k]);
    ClassOfShows(services[f]);
    PutAllPublishes(store.classes, rs, broker, true, refusedClasses, n);
    PutAllExtends(store.classes, rs, broker, true, refusedClasses);
    if n !in store.classes { PutAllCreates(store.classes, rs, broker, true, refusedClasses, n); }
  }

  /** Plan `l` of service `k` is the last one listed under its ID. */
  ghost predicate PlanListedLast(services: seq<BrokerService>, k: nat, l: nat) {
    && k < |services| && l < |services[k].plans|
    && (forall j :: l < j < |services[k].plans| ==> services[k].plans[j].id != services[k].plans[l].id)
    && (forall i, j :: k < i < |services| && 0 <= j < |services[i].plans| ==> services[i].plans[j].id != services[k].plans[l].id)
  }

  lemma LastPlanExtends(services: seq<BrokerService>, k: nat, l: nat)
    requires services != [] && PlanListedLast(services[..|services| - 1], k, l)
    requires forall j :: 0 <= j < |Last(services).plans| ==> Last(services).plans[j].id != services[k].plans[l].id
    ensures PlanListedLast(services, k, l)
  {
    var init := services[..|services| - 1];
    forall i, j | k < i < |services| && 0 <= j < |services[i].plans|
      ensures services[i].plans[j].id != services[k].plans[l].id
    {
      assert init[k] == services[k];
      if i < |init| { assert init[i] == services[i]; } else { assert services[i] == Last(services); }
    }
  }

  /** The last plan under an ID among the converted plans is that of the catalog. */
  lemma {:induction false} LastPlan(services: seq<BrokerService>, n: Name, m: nat) returns (k: nat, l: nat)
    requires services != [] && m <= |Last(services).plans|
    requires LastOf(PlansOf(services[..|services| - 1]) + PlanPart(services, m), n).Some?
    requires forall j :: m <= j < |Last(services).plans| ==> Last(services).plans[j].id != n
    ensures PlanListedLast(services, k, l) && services[k].plans[l].id == n
    ensures LastOf(PlansOf(services[..|services| - 1]) + PlanPart(services, m), n) ==
            Some(PlanOf(services[k].plans[l], services[k].id))
    decreases |services|, m
  {
    var init := services[..|services| - 1];
    var rs := PlansOf(init) + PlanPart(services, m);
    if m == 0 {
      assert rs == PlansOf(init);
      assert init != [];
      assert PlansOf(init) == PlansOf(init[..|init| - 1]) + PlanPart(init, |Last(init).plans|);
      k, l := LastPlan(init, n, |Last(init).plans|);
      LastPlanExtends(services, k, l);
    } else if Last(services).plans[m - 1].id == n {
      k, l := |services| - 1, m - 1;
      assert Last(rs) == PlanOf(Last(services).plans[m - 1], Last(services).id);
    } else {
      assert rs[..|rs| - 1] == PlansOf(init) + PlanPart(services, m - 1);
      assert Last(rs) == PlanOf(Last(services).plans[m - 1], Last(services).id);
      k, l := LastPlan(services, n, m - 1);
    }
  }

  /** The first `m` plans of the last service. */
  function PlanPart(services: seq<BrokerService>, m: nat): seq<Plan>
    requires services != [] && m <= |Last(services).plans|
  {
    seq(m, i requires 0 <= i < m => PlanOf(Last(services).plans[i], Last(services).id))
  }

  lemma {:induction false} FirstIndex<F(!new), M(!new)>(rs: seq<Resource<F, M>>, n: Name) returns (k: nat)
    requires FirstOf(rs, n).Some?
    ensures k < |rs| && FirstOf(rs, n) == Some(rs[k]) && rs[k].name == n && forall j :: 0 <= j < k ==> rs[j].name != n
  {
    var init := rs[..|rs| - 1];
    if FirstOf(init, n).Some? {
      k := FirstIndex(init, n);
    } else {
      k := |rs| - 1;
      forall j | 0 <= j < k ensures rs[j].name != n {
        if rs[j].name == n { FirstOfIsThere(init, init[j]); }
      }
    }
  }

  /** A new plan shows the name, the class and the metadata of the plan listed first under its ID. */
  lemma RelistCreatesPlan(store: Store, broker: Name, services: seq<BrokerService>, refusedPlans: set<Name>, refusedClasses: set<Name>, i: nat, j: nat)
    returns (f: nat, g: nat)
    requires Relist(store, broker, services, refusedPlans, refusedClasses).1
    requires i < |services| && j < |services[i].plans| && services[i].plans[j].id !in store.plans
    ensures f < |services| && g < |services[f].plans| && services[f].plans[g].id == services[i].plans[j].id
    ensures forall i', j' :: 0 <= i' < |services| && 0 <= j' < |services[i'].plans| ==>
      Offset(services, f) + g <= Offset(services, i') + j' || services[i'].plans[j'].id != services[i].plans[j].id
    ensures var s := Relist(store, broker, services, refusedPlans, refusedClasses).0;
      var n := services[i].plans[j].id;
      n in s.plans && s.plans[n].broker == broker && PlanOriginal(s.plans[n].fixed, services[f].plans[g], services[f].id)
  {
    var n, rs := services[i].plans[j].id, PlansOf(services);
    PlansAreInOrder(services, i, j);
    FirstOfIsThere(rs, PlanOf(services[i].plans[j], services[i].id));
    var k := FirstIndex(rs, n);
    f, g := PlansReferToClasses(services, k);
    PlansAreInOrder(services, f, g);
    assert Convertible(services[f]) && services[f].plans[g] in services[f].plans;
    PlanOfShows(services[f].plans[g], services[f].id);
    PutAllCreates(store.plans, rs, broker, false, refusedPlans, n);
    forall i', j' | 0 <= i' < |services| && 0 <= j' < |services[i'].plans| && Offset(services, i') + j' < k
      ensures services[i'].plans[j'].id != n
    {
      PlansAreInOrder(services, i', j');
    }
  }

  /** And so is every plan of every service, as it was listed last under its ID; an existing one stays with its class. */
  lemma RelistPublishesPlan(store: Store, broker: Name, services: seq<BrokerService>, refusedPlans: set<Name>, refusedClasses: set<Name>, i: nat, j: nat)
    returns (k: nat, l: nat)
    requires Relist(store, broker, services, refusedPlans, refusedClasses).1
    requires i < |services| && j < |services[i].plans|
    ensures PlanListedLast(services, k, l) && services[k].plans[l].id == services[i].plans[j].id
    ensures var s := Relist(store, broker, services, refusedPlans, refusedClasses).0;
      var n := services[i].plans[j].id;
      && n in s.plans && s.plans[n].externalID == n && PlanCurrent(s.plans[n].changing, services[k].plans[l])
      && (n in store.plans ==> s.plans[n].fixed == store.plans[n].fixed && s.plans[n].broker == store.plans[n].broker)
      && (n !in store.plans ==> s.plans[n].broker == broker)
  {
    var n, rs := services[i].plans[j].id, PlansOf(services);
    PlansAreInOrder(services, i, j);
    PlansAreNamedByID(services);
    LastOfIsThere(rs, PlanOf(services[i].plans[j], services[i].id));
    LastOfName(rs, n);
    assert rs == PlansOf(services[..|services| - 1]) + PlanPart(services, |Last(services).plans|);
    k, l := LastPlan(services, n, |Last(services).plans|);
    assert Convertible(services[k]) && services[k].plans[l] in services[k].plans;
    PlanOfShows(services[k].plans[l], services[k].id);
    PutAllPublishes(store.plans, rs, broker, false, refusedPlans, n);
    PutAllExtends(store.plans, rs, broker, false, refusedPlans);
  }

  ghost predicate AdmitsClass(store: Store, broker: Name, n: Name, refused: set<Name>) {
    n !in refused && (n in store.classes ==> store.classes[n].externalID == n && store.classes[n].broker == broker)
  }

  ghost predicate AdmitsPlan(store: Store, n: Name, refused: set<Name>) {
    n !in refused && (n in store.plans ==> store.plans[n].externalID == n)
  }

  /** All classes of a catalog are admitted exactly if each service's is. */
  lemma ClassesAdmitted(store: Store, broker: Name, services: seq<BrokerService>, refused: set<Name>)
    ensures (forall r :: r in ClassesOf(services) ==> Admits(store.classes, r, broker, true, refused)) <==>
            (forall i :: 0 <= i < |services| ==> AdmitsClass(store, broker, services[i].id, refused))
  {
    var cs := ClassesOf(services);
    forall i | 0 <= i < |services|
      ensures cs[i] in cs && (Admits(store.classes, cs[i], broker, true, refused) <==> AdmitsClass(store, broker, services[i].id, refused))
    {
      assert cs[i] == ClassOf(services[i]);
    }
    hide Admits, AdmitsClass;
  }

  lemma PlanAdmitted(store: Store, broker: Name, services: seq<BrokerService>, refused: set<Name>, i: nat, j: nat)
    requires i < |services| && j < |services[i].plans|
    ensures var r := PlanOf(services[i].plans[j], services[i].id);
      r in PlansOf(services) && (Admits(store.plans, r, broker, false, refused) <==> AdmitsPlan(store, r.name, refused))
  {
    PlansAreInOrder(services, i, j);
  }

  /** The same for the plans of every service. */
  lemma PlansAdmitted(store: Store, broker: Name, services: seq<BrokerService>, refused: set<Name>)
    ensures (forall r :: r in PlansOf(services) ==> Admits(store.plans, r, broker, false, refused)) <==>
            (forall i, j :: 0 <= i < |services| && 0 <= j < |services[i].plans| ==>
               AdmitsPlan(store, services[i].plans[j].id, refused))
  {
    hide Admits, AdmitsPlan, PlansOf, NamedByID;
    var ps := PlansOf(services);
    if forall r :: r in ps ==> Admits(store.plans, r, broker, false, refused) {
      forall i, j | 0 <= i < |services| && 0 <= j < |services[i].plans|
        ensures AdmitsPlan(store, services[i].plans[j].id, refused)
      {
        PlanAdmitted(store, broker, services, refused, i, j);
      }
    }
    if forall i, j :: 0 <= i < |services| && 0 <= j < |services[i].plans| ==> AdmitsPlan(store, services[i].plans[j].id, refused) {
      forall r | r in ps ensures Admits(store.plans, r, broker, false, refused) {
        var k :| 0 <= k < |ps| && ps[k] == r;
        var i, j := PlansReferToClasses(services, k);
        PlansAreInOrder(services, i, j);
        PlanAdmitted(store, broker, services, refused, i, j);
      }
    }
  }

  /**
    A relist succeeds if and only if the catalog is not empty and converts, no write it needs is
    refused, nothing is published under one of its IDs with another external ID, and none of its
    classes belongs to another broker.
   */
  lemma RelistSucceeds(store: Store, broker: Name, services: seq<BrokerService>, refusedPlans: set<Name>, refusedClasses: set<Name>)
    ensures Relist(store, broker, services, refusedPlans, refusedClasses).1 <==>
      && Publishable(services)
      && (forall i :: 0 <= i < |services| ==> AdmitsClass(store, broker, services[i].id, refusedClasses))
      && (forall i, j :: 0 <= i < |services| && 0 <= j < |services[i].plans| ==>
            AdmitsPlan(store, services[i].plans[j].id, refusedPlans))
  {
    PlansAreNamedByID(services);
    PutAllSucceeds(store.plans, PlansOf(services), broker, false, refusedPlans);
    PutAllSucceeds(store.classes, ClassesOf(services), broker, true, refusedClasses);
    ClassesAdmitted(store, broker, services, refusedClasses);
    PlansAdmitted(store, broker, services, refusedPlans);
    hide Admits, AdmitsPlan, AdmitsClass, PlansOf, ClassesOf, NamedByID, PutAll, Publishable;
  }

  lemma {:induction false} PlansAreNamedByID(services: seq<BrokerService>)
    ensures NamedByID(PlansOf(services))
  {
    if services != [] { PlansAreNamedByID(services[..|services| - 1]); }
  }

  /** Relisting an unchanged catalog succeeds again and changes nothing. */
  lemma RelistIsIdempotent(store: Store, broker: Name, services: seq<BrokerService>, refusedPlans: set<Name>, refusedClasses: set<Name>)
    requires Relist(store, broker, services, refusedPlans, refusedClasses).1
    ensures var s := Relist(store, broker, services, refusedPlans, refusedClasses).0;
      Relist(s, broker, services, refusedPlans, refusedClasses) == (s, true)
  {
    PlansAreNamedByID(services);
    PutAllIsIdempotent(store.plans, PlansOf(services), broker, false, refusedPlans);
    PutAllIsIdempotent(store.classes, ClassesOf(services), broker, true, refusedClasses);
  }

  // ---------- Cascading deletion ----------

  /** The classes of a broker, and the plans of those classes. */
  ghost predicate OwnsClass(store: Store, broker: Name, n: Name) {
    n in store.classes && store.classes[n].broker == broker
  }

  ghost predicate OwnsPlan(store: Store, broker: Name, n: Name) {
    n in store.plans && OwnsClass(store, broker, store.plans[n].fixed.classRef)
  }

  /** Only what the broker owned is missing. */
  ghost predicate RemovesOnly(before: Store, after: Store, broker: Name) {
    && (forall n :: n in after.classes ==> n in before.classes && after.classes[n] == before.classes[n])
    && (forall n :: n in after.plans ==> n in before.plans && after.plans[n] == before.plans[n])
    && (forall n :: n in before.classes && n !in after.classes ==> OwnsClass(before, broker, n))
    && (forall n :: n in before.plans && n !in after.plans ==> OwnsPlan(before, broker, n))
  }

  /** None of the deletions a broker's removal needs fails. */
  ghost predicate NothingRefused(store: Store, broker: Name, refusedClasses: set<Name>, refusedPlans: set<Name>) {
    && (forall n :: OwnsClass(store, broker, n) ==> n !in refusedClasses)
    && (forall n :: OwnsPlan(store, broker, n) ==> n !in refusedPlans)
  }

  // ---------- The control loop ----------

  class Controller {
    var classes: Shelf<ClassFixed, ClassFields>
    var plans: Shelf<PlanFixed, PlanFields>
    var finalizer: bool
    const refusedClasses: set<Name>   // names whose writes and deletions fail in this pass
    const refusedPlans: set<Name>

    constructor (store: Store, finalizer: bool, refusedClasses: set<Name>, refusedPlans: set<Name>)
      ensures Value() == store && this.finalizer == finalizer
      ensures this.refusedClasses == refusedClasses && this.refusedPlans == refusedPlans
    {
      classes, plans, this.finalizer := store.classes, store.plans, finalizer;
      this.refusedClasses, this.refusedPlans := refusedClasses, refusedPlans;
    }

    function Value(): Store
      reads this
    {
      Store(classes, plans)
    }

    /** reconcileServiceClassFromClusterServiceBrokerCatalog */
    method ReconcileServiceClass(broker: Name, c: Class) returns (ok: bool)
      modifies this`classes
      ensures (classes, ok) == Put(old(classes), c, broker, true, refusedClasses)
    {
      if c.name !in classes {
        if c.name in refusedClasses {
          return false;
        }
        classes := classes[c.name := c.(broker := broker)];
        return true;
      }
      var existing := classes[c.name];
      if existing.broker != broker {
        return false;
      }
      if existing.externalID != c.externalID {
        return false;
      }
      if c.name in refusedClasses {
        return false;
      }
      classes := classes[c.name := existing.(changing := c.changing)];
      return true;
    }

    /** reconcileServicePlan */
    method ReconcileServicePlan(broker: Name, p: Plan) returns (ok: bool)
      modifies this`plans
      ensures (plans, ok) == Put(old(plans), p, broker, false, refusedPlans)
    {
      if p.name !in plans {
        if p.name in refusedPlans {
          return false;
        }
        plans := plans[p.name := p.(broker := broker)];
        return true;
      }
      var existing := plans[p.name];
      if existing.externalID != p.externalID {
        return false;
      }
      if p.name in refusedPlans {
        return false;
      }
      plans := plans[p.name := existing.(changing := p.changing)];
      return true;
    }

    method ReconcilePlans(broker: Name, converted: seq<Plan>) returns (ok: bool)
      modifies this`plans
      ensures (plans, ok) == PutAll(old(plans), converted, broker, false, refusedPlans)
    {
      for i := 0 to |converted|
        invariant (plans, true) == PutAll(old(plans), converted[..i], broker, false, refusedPlans)
      {
        assert converted[..i + 1][..i] == converted[..i];
        ok := ReconcileServicePlan(broker, converted[i]);
        if !ok {
          PutAllStops(old(plans), converted, i + 1, broker, false, refusedPlans);
          return;
        }
      }
      assert converted[..|converted|] == converted;
      return true;
    }

    method ReconcileClasses(broker: Name, converted: seq<Class>) returns (ok: bool)
      modifies this`classes
      ensures (classes, ok) == PutAll(old(classes), converted, broker, true, refusedClasses)
    {
      for i := 0 to |converted|
        invariant (classes, true) == PutAll(old(classes), converted[..i], broker, true, refusedClasses)
      {
        assert converted[..i + 1][..i] == converted[..i];
        ok := ReconcileServiceClass(broker, converted[i]);
        if !ok {
          PutAllStops(old(classes), converted, i + 1, broker, true, refusedClasses);
          return;
        }
      }
      assert converted[..|converted|] == converted;
      return true;
    }

    /** The branch of reconcileClusterServiceBroker for a broker that stays. */
    method RelistCatalog(broker: Name, services: seq<BrokerService>) returns (ok: bool)
      modifies this`classes, this`plans
      ensures (Value(), ok) == Relist(old(Value()), broker, services, refusedPlans, refusedClasses)
    {
      var converted := ConvertCatalog(services);
      if converted.None? {
        return false;
      }
      var (newClasses, newPlans) := converted.value;
      if |newClasses| == 0 {
        return false;
      }
      assert newClasses == ClassesOf(services);
      ok := ReconcilePlans(broker, newPlans);
      if !ok {
        return;
      }
      ok := ReconcileClasses(broker, newClasses);
    }

    /** Deletes the plans of one class, in any order, up to the first failure. */
    method DeletePlansOf(class_: Name) returns (ok: bool)
      modifies this`plans
      ensures forall n :: n in plans ==> n in old(plans) && plans[n] == old(plans)[n]
      ensures forall n :: n in old(plans) && n !in plans ==> old(plans)[n].fixed.classRef == class_
      ensures ok <==> forall n :: n in plans ==> plans[n].fixed.classRef != class_
      ensures ok <==> forall n :: n in old(plans) && old(plans)[n].fixed.classRef == class_ ==> n !in refusedPlans
    {
      var listed := plans.Keys;
      while listed != {}
        invariant forall n :: n in plans ==> n in old(plans) && plans[n] == old(plans)[n]
        invariant forall n :: n in old(plans) && n !in plans ==> old(plans)[n].fixed.classRef == class_
        invariant listed <= plans.Keys
        invariant forall n :: n in plans && n !in listed ==> plans[n].fixed.classRef != class_
        invariant forall n :: n in old(plans) && n !in plans ==> n !in refusedPlans
      {
        var n :| n in listed;
        listed := listed - {n};
        if plans[n].fixed.classRef == class_ {
          if n in refusedPlans {
            return false;
          }
          plans := plans - {n};
        }
      }
      return true;
    }

    /** Deletes the classes of a broker with their plans, in any order, up to the first failure. */
    method DeleteClassesOf(broker: Name) returns (ok: bool)
      modifies this`classes, this`plans
      ensures RemovesOnly(old(Value()), Value(), broker)
      ensures ok ==> forall n :: n in classes ==> classes[n].broker != broker
      ensures ok ==> forall n :: n in plans ==> !OwnsPlan(old(Value()), broker, n)
      ensures ok <==> NothingRefused(old(Value()), broker, refusedClasses, refusedPlans)
    {
      var listed := classes.Keys;
      ghost var store := Value();
      while listed != {}
        invariant RemovesOnly(store, Value(), broker)
        invariant listed <= classes.Keys
        invariant forall n :: n in classes && n !in listed ==> classes[n].broker != broker
        invariant forall n :: n in plans && OwnsPlan(store, broker, n) ==> plans[n].fixed.classRef in listed
        invariant forall n :: n in store.classes && n !in classes ==> n !in refusedClasses
        invariant forall n :: n in store.plans && n !in plans ==> n !in refusedPlans
      {
        var n :| n in listed;
        listed := listed - {n};
        if classes[n].broker == broker {
          assert OwnsClass(store, broker, n);
          ok := DeletePlansOf(n);
          if !ok {
            return;
          }
          if n in refusedClasses {
            return false;
          }
          classes := classes - {n};
        }
      }
      return true;
    }

    /**
      The branch of reconcileClusterServiceBroker for a broker marked for deletion: the finalizer
      goes exactly when every deletion and both updates succeed; then nothing the broker owned
      remains, and nothing else is ever touched.
     */
    method FinalizeBroker(broker: Name, conditionOk: bool, finalizersOk: bool) returns (ok: bool)
      modifies this
      ensures RemovesOnly(old(Value()), Value(), broker)
      ensures old(finalizer) && !finalizer ==>
        && (forall n :: n in classes <==> n in old(classes) && old(classes)[n].broker != broker)
        && (forall n :: n in plans <==> n in old(plans) && !OwnsPlan(old(Value()), broker, n))
      ensures !old(finalizer) ==> Value() == old(Value()) && !finalizer && ok
      ensures old(finalizer) ==>
        && (!finalizer <==> NothingRefused(old(Value()), broker, refusedClasses, refusedPlans) && conditionOk && finalizersOk)
        && (ok <==> NothingRefused(old(Value()), broker, refusedClasses, refusedPlans) && conditionOk)
    {
      if !finalizer {
        return true;
      }
      ghost var store := Value();
      ok := DeleteClassesOf(broker);
      if !ok {
        return;
      }
      if !conditionOk {
        return false;
      }
      if finalizersOk {
        finalizer := false;
      }
      assert forall n :: OwnsClass(store, broker, n) ==> n in store.classes && store.classes[n].broker == broker;
      return true;
    }
  }

  /** A failure in the middle of the list is the outcome of the whole list. */
  lemma {:induction false} PutAllStops<F(!new), M(!new)>(
      shelf: Shelf<F, M>, rs: seq<Resource<F, M>>, i: nat, broker: Name, protects: bool, refused: set<Name>)
    requires i <= |rs| && !PutAll(shelf, rs[..i], broker, protects, refused).1
    ensures PutAll(shelf, rs, broker, protects, refused) == PutAll(shelf, rs[..i], broker, protects, refused)
  {
    if i < |rs| {
      var init := rs[..|rs| - 1];
      assert init[..i] == rs[..i];
      PutAllStops(shelf, init, i, broker, protects, refused);
    } else {
      assert rs[..i] == rs;
    }
  }
}
