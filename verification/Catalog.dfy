/**
  Broker catalogs: turning a broker's answer into classes and plans, writing them over the ones
  already published, and removing everything of a broker that is deleted. Listers are current.
 */
module Catalog {
  import opened Common

  // ---------- The broker's answer ----------

  /** A free-form document and its JSON form, None if it cannot be marshalled. */
  datatype Document = Document(json: Option<string>)

  datatype BrokerPlan = BrokerPlan(
    id: Name, name: Name, free: Option<bool>, bindable: Option<bool>, description: string,
    metadata: Option<Document>,
    instanceCreate: Option<Document>, instanceUpdate: Option<Document>, bindingCreate: Option<Document>
  )

  datatype BrokerService = BrokerService(
    id: Name, name: Name, bindable: bool, planUpdatable: Option<bool>, tags: seq<string>, description: string,
    requirements: seq<string>, metadata: Option<Document>, plans: seq<BrokerPlan>
  )

  // ---------- Classes and plans ----------

  /** A published class or plan: what an update leaves as it is, and what it overwrites. */
  datatype Resource<F, M> = Resource(name: Name, broker: Name, externalID: Name, fixed: F, changing: M)

  datatype ClassFixed = ClassFixed(externalName: Name, metadata: Option<string>)

  datatype ClassFields = ClassFields(
    bindable: bool, planUpdatable: bool, tags: seq<string>, description: string, requirements: seq<string>)

  datatype PlanFixed = PlanFixed(externalName: Name, classRef: Name, metadata: Option<string>)

  datatype PlanFields = PlanFields(
    description: string, bindable: Option<bool>, free: bool,
    instanceCreate: Option<string>, instanceUpdate: Option<string>, bindingCreate: Option<string>)

  type Class = Resource<ClassFixed, ClassFields>

  type Plan = Resource<PlanFixed, PlanFields>

  // ---------- Conversion ----------

  predicate Marshals(d: Option<Document>) { d.Some? ==> d.value.json.Some? }

  function Json(d: Option<Document>): Option<string> {
    if d.Some? then d.value.json else None
  }

  predicate PlanMarshals(p: BrokerPlan) {
    Marshals(p.metadata) && Marshals(p.instanceCreate) && Marshals(p.instanceUpdate) && Marshals(p.bindingCreate)
  }

  ghost predicate Convertible(s: BrokerService) {
    Marshals(s.metadata) && s.plans != [] && forall p :: p in s.plans ==> PlanMarshals(p)
  }

  function PlanOf(p: BrokerPlan, classID: Name): Plan {
    Resource(p.id, "", p.id, PlanFixed(p.name, classID, Json(p.metadata)),
             PlanFields(p.description, p.bindable, p.free == Some(true),
                        Json(p.instanceCreate), Json(p.instanceUpdate), Json(p.bindingCreate)))
  }

  function ClassOf(s: BrokerService): Class {
    Resource(s.id, "", s.id, ClassFixed(s.name, Json(s.metadata)),
             ClassFields(s.bindable, s.planUpdatable == Some(true), s.tags, s.description, s.requirements))
  }

  /** A document of the broker as it is published: absent exactly if absent, else its JSON form. */
  ghost predicate Publishes(d: Option<Document>, published: Option<string>) {
    match d
    case None => published.None?
    case Some(document) => published.Some? && document.json == published
  }

  /** What a class takes over from the service each time, and what only when it is created. */
  ghost predicate ClassCurrent(c: ClassFields, s: BrokerService) {
    && c.bindable == s.bindable && c.tags == s.tags && c.description == s.description && c.requirements == s.requirements
    && (c.planUpdatable <==> s.planUpdatable.Some? && s.planUpdatable.value)
  }

  ghost predicate ClassOriginal(c: ClassFixed, s: BrokerService) {
    c.externalName == s.name && Publishes(s.metadata, c.metadata)
  }

  ghost predicate ClassShows(c: Class, s: BrokerService) {
    c.name == s.id && c.externalID == s.id && ClassCurrent(c.changing, s) && ClassOriginal(c.fixed, s)
  }

  /** The same for a plan. */
  ghost predicate PlanCurrent(c: PlanFields, p: BrokerPlan) {
    && c.description == p.description && c.bindable == p.bindable && (c.free <==> p.free.Some? && p.free.value)
    && Publishes(p.instanceCreate, c.instanceCreate)
    && Publishes(p.instanceUpdate, c.instanceUpdate)
    && Publishes(p.bindingCreate, c.bindingCreate)
  }

  ghost predicate PlanOriginal(c: PlanFixed, p: BrokerPlan, classID: Name) {
    c.externalName == p.name && c.classRef == classID && Publishes(p.metadata, c.metadata)
  }

  ghost predicate PlanShows(c: Plan, p: BrokerPlan, classID: Name) {
    c.name == p.id && c.externalID == p.id && PlanCurrent(c.changing, p) && PlanOriginal(c.fixed, p, classID)
  }

  /** The conversions of one plan and one service show what the broker said. */
  lemma PlanOfShows(p: BrokerPlan, classID: Name)
    requires PlanMarshals(p)
    ensures PlanShows(PlanOf(p, classID), p, classID)
  {
  }

  lemma ClassOfShows(s: BrokerService)
    requires Marshals(s.metadata)
    ensures ClassShows(ClassOf(s), s)
  {
  }

  /** The plans of a catalog, service by service. */
  function PlansOf(services: seq<BrokerService>): seq<Plan> {
    if services == [] then []
    else
      var s := Last(services);
      PlansOf(services[..|services| - 1]) + seq(|s.plans|, i requires 0 <= i < |s.plans| => PlanOf(s.plans[i], s.id))
  }

  /** Where the plans of service `i` begin. */
  function Offset(services: seq<BrokerService>, i: nat): nat
    requires i <= |services|
  {
    |PlansOf(services[..i])|
  }

  /** Plan `j` of service `i` stands at its place and shows what the broker said. */
  ghost predicate PlanStands(plans: seq<Plan>, services: seq<BrokerService>, i: nat, j: nat) {
    && i < |services| && j < |services[i].plans| && Offset(services, i) + j < |plans|
    && PlanShows(plans[Offset(services, i) + j], services[i].plans[j], services[i].id)
  }

  /** convertServicePlans */
  method ConvertServicePlans(plans: seq<BrokerPlan>, classID: Name) returns (r: Option<seq<Plan>>)
    ensures r.Some? <==> plans != [] && forall p :: p in plans ==> PlanMarshals(p)
    ensures r.Some? ==> |r.value| == |plans| && forall i :: 0 <= i < |plans| ==> r.value[i] == PlanOf(plans[i], classID)
    ensures r.Some? ==> forall i :: 0 <= i < |plans| ==> PlanShows(r.value[i], plans[i], classID)
  {
    if |plans| == 0 {
      return None;
    }
    var converted: seq<Plan> := [];
    for i := 0 to |plans|
      invariant |converted| == i
      invariant forall j :: 0 <= j < i ==> PlanMarshals(plans[j]) && converted[j] == PlanOf(plans[j], classID)
      invariant forall j :: 0 <= j < i ==> PlanShows(converted[j], plans[j], classID)
    {
      var plan := plans[i];
      assert plan in plans;
      if !Marshals(plan.metadata) || !Marshals(plan.instanceCreate) || !Marshals(plan.instanceUpdate) || !Marshals(plan.bindingCreate) {
        return None;
      }
      converted := converted + [Resource(
        plan.id, "", plan.id, PlanFixed(plan.name, classID, Json(plan.metadata)),
        PlanFields(plan.description, plan.bindable, plan.free.Some? && plan.free.value,
                   Json(plan.instanceCreate), Json(plan.instanceUpdate), Json(plan.bindingCreate)))];
    }
    return Some(converted);
  }

  /** convertCatalog: succeeds exactly if every service has a plan and everything can be marshalled. */
  method ConvertCatalog(services: seq<BrokerService>) returns (r: Option<(seq<Class>, seq<Plan>)>)
    ensures r.Some? <==> forall s :: s in services ==> Convertible(s)
    ensures r.Some? ==>
      && |r.value.0| == |services| && (forall i :: 0 <= i < |services| ==> r.value.0[i] == ClassOf(services[i]))
      && r.value.1 == PlansOf(services)
    ensures r.Some? ==> forall i :: 0 <= i < |services| ==> ClassShows(r.value.0[i], services[i])
    ensures r.Some? ==> forall i, j :: 0 <= i < |services| && 0 <= j < |services[i].plans| ==>
      PlanStands(r.value.1, services, i, j)
  {
    var classes: seq<Class> := [];
    var plans: seq<Plan> := [];
    for i := 0 to |services|
      invariant |classes| == i && plans == PlansOf(services[..i])
      invariant forall j :: 0 <= j < i ==> Convertible(services[j]) && classes[j] == ClassOf(services[j])
      invariant forall j :: 0 <= j < i ==> ClassShows(classes[j], services[j])
    {
      var service := services[i];
      assert service in services;
      if !Marshals(service.metadata) {
        return None;
      }
      var converted := ConvertServicePlans(service.plans, service.id);
      if converted.None? {
        return None;
      }
      classes := classes + [ClassOf(service)];
      plans := plans + converted.value;
      assert services[..i + 1][..i] == services[..i] && Last(services[..i + 1]) == service;
    }
    assert services[..|services|] == services;
    forall i, j | 0 <= i < |services| && 0 <= j < |services[i].plans|
      ensures PlanStands(plans, services, i, j)
    {
      assert Convertible(services[i]) && services[i].plans[j] in services[i].plans;
      PlansAreInOrder(services, i, j);
      PlanOfShows(services[i].plans[j], services[i].id);
    }
    return Some((classes, plans));
  }

  /** The plans come in the order of the catalog, each refers to the class of its service, and there are no others. */
  lemma {:induction false} PlansAreInOrder(services: seq<BrokerService>, i: nat, j: nat)
    requires i < |services| && j < |services[i].plans|
    ensures Offset(services, i + 1) == Offset(services, i) + |services[i].plans|
    ensures Offset(services, i) + j < |PlansOf(services)|
    ensures PlansOf(services)[Offset(services, i) + j] == PlanOf(services[i].plans[j], ClassOf(services[i]).name)
    decreases |services|
  {
    assert services[..i + 1][..i] == services[..i];
    if i + 1 < |services| {
      var init := services[..|services| - 1];
      assert init[..i] == services[..i] && init[..i + 1] == services[..i + 1];
      PlansAreInOrder(init, i, j);
    } else {
      assert services[..i + 1] == services;
    }
  }

  lemma {:induction false} PlansReferToClasses(services: seq<BrokerService>, k: nat) returns (i: nat, j: nat)
    requires k < |PlansOf(services)|
    ensures i < |services| && j < |services[i].plans| && k == Offset(services, i) + j
    ensures PlansOf(services)[k].fixed.classRef == ClassOf(services[i]).name
  {
    var init := services[..|services| - 1];
    if k < |PlansOf(init)| {
      i, j := PlansReferToClasses(init, k);
      assert init[..i] == services[..i];
    } else {
      i, j := |services| - 1, k - |PlansOf(init)|;
      assert services[..i] == init;
    }
  }

  // ---------- Publishing ----------

  type Shelf<F, M> = map<Name, Resource<F, M>>

  /** Writing one class or plan: only classes are protected from other brokers. */
  function Put<F, M>(shelf: Shelf<F, M>, r: Resource<F, M>, broker: Name, protects: bool, refused: set<Name>): (Shelf<F, M>, bool) {
    if r.name !in shelf then
      if r.name in refused then (shelf, false) else (shelf[r.name := r.(broker := broker)], true)
    else
      var existing := shelf[r.name];
      if (protects && existing.broker != broker) || existing.externalID != r.externalID || r.name in refused then (shelf, false)
      else (shelf[r.name := existing.(changing := r.changing)], true)
  }

  /** One after the other, up to the first failure. */
  function PutAll<F, M>(shelf: Shelf<F, M>, rs: seq<Resource<F, M>>, broker: Name, protects: bool, refused: set<Name>): (Shelf<F, M>, bool) {
    if rs == [] then (shelf, true)
    else
      var (s, ok) := PutAll(shelf, rs[..|rs| - 1], broker, protects, refused);
      if ok then Put(s, Last(rs), broker, protects, refused) else (s, false)
  }

  /** The latest entry under a name. */
  function LastOf<F, M>(rs: seq<Resource<F, M>>, n: Name): Option<Resource<F, M>> {
    if rs == [] then None else if Last(rs).name == n then Some(Last(rs)) else LastOf(rs[..|rs| - 1], n)
  }

  /** What publishing keeps: nothing disappears, and an entry keeps its owner, its ID and its fixed part. */
  ghost predicate Extends<F(!new), M(!new)>(before: Shelf<F, M>, after: Shelf<F, M>, broker: Name, protects: bool) {
    && (forall n :: n in before ==> n in after && after[n] == before[n].(changing := after[n].changing))
    && (forall n :: n in before && protects && before[n].broker != broker ==> after[n] == before[n])
    && (forall n :: n in after && n !in before ==> after[n].broker == broker)
  }

  lemma {:induction false} PutAllExtends<F(!new), M(!new)>(
      shelf: Shelf<F, M>, rs: seq<Resource<F, M>>, broker: Name, protects: bool, refused: set<Name>)
    ensures Extends(shelf, PutAll(shelf, rs, broker, protects, refused).0, broker, protects)
  {
    if rs != [] {
      PutAllExtends(shelf, rs[..|rs| - 1], broker, protects, refused);
    }
  }

  /** After a success every entry of the list is on the shelf as its latest occurrence has it, and no other changed. */
  lemma {:induction false} PutAllPublishes<F(!new), M(!new)>(
      shelf: Shelf<F, M>, rs: seq<Resource<F, M>>, broker: Name, protects: bool, refused: set<Name>, n: Name)
    requires PutAll(shelf, rs, broker, protects, refused).1
    ensures var s := PutAll(shelf, rs, broker, protects, refused).0;
      match LastOf(rs, n)
      case None => (n in s <==> n in shelf) && (n in s ==> s[n] == shelf[n])
      case Some(r) =>
        && n in s && s[n].externalID == r.externalID && s[n].changing == r.changing
        && (protects ==> s[n].broker == broker) && n !in refused
  {
    if rs != [] {
      PutAllPublishes(shelf, rs[..|rs| - 1], broker, protects, refused, n);
    }
  }

  /** On a shelf that already has the whole list, publishing succeeds and only overwrites. */
  lemma {:induction false} PutAllOverwrites<F(!new), M(!new)>(
      shelf: Shelf<F, M>, rs: seq<Resource<F, M>>, broker: Name, protects: bool, refused: set<Name>)
    requires forall r :: r in rs ==>
      && r.name in shelf && shelf[r.name].externalID == r.externalID && r.name !in refused
      && (protects ==> shelf[r.name].broker == broker)
    ensures var (s, ok) := PutAll(shelf, rs, broker, protects, refused);
      && ok && s.Keys == shelf.Keys
      && forall n :: n in shelf ==>
           s[n] == if LastOf(rs, n).Some? then shelf[n].(changing := LastOf(rs, n).value.changing) else shelf[n]
  {
    if rs != [] {
      PutAllOverwrites(shelf, rs[..|rs| - 1], broker, protects, refused);
      assert Last(rs) in rs;
    }
  }

  /** Nothing stands in the way of an entry: no refusal, no other ID under its name and, for classes, no other owner. */
  ghost predicate Admits<F(!new), M(!new)>(
      shelf: Shelf<F, M>, r: Resource<F, M>, broker: Name, protects: bool, refused: set<Name>)
  {
    && r.name !in refused
    && (r.name in shelf ==> shelf[r.name].externalID == r.externalID && (protects ==> shelf[r.name].broker == broker))
  }

  /** Publishing succeeds if and only if the shelf as it was admits every entry. */
  lemma {:induction false} PutAllSucceeds<F(!new), M(!new)>(
      shelf: Shelf<F, M>, rs: seq<Resource<F, M>>, broker: Name, protects: bool, refused: set<Name>)
    requires NamedByID(rs)
    ensures PutAll(shelf, rs, broker, protects, refused).1 <==> forall r :: r in rs ==> Admits(shelf, r, broker, protects, refused)
  {
    if rs != [] {
      var init, r := rs[..|rs| - 1], Last(rs);
      assert rs == init + [r] && r in rs;
      assert NamedByID(init);
      PutAllSucceeds(shelf, init, broker, protects, refused);
      var (s, ok) := PutAll(shelf, init, broker, protects, refused);
      PutAllExtends(shelf, init, broker, protects, refused);
      if ok {
        PutAllPublishes(shelf, init, broker, protects, refused, r.name);
        if LastOf(init, r.name).Some? { LastOfName(init, r.name); }
        assert Admits(shelf, r, broker, protects, refused) <==> Put(s, r, broker, protects, refused).1;
      }
    }
  }

  /** The first entry under a name. */
  function FirstOf<F, M>(rs: seq<Resource<F, M>>, n: Name): Option<Resource<F, M>> {
    if rs == [] then None
    else
      var first := FirstOf(rs[..|rs| - 1], n);
      if first.Some? then first else if Last(rs).name == n then Some(Last(rs)) else None
  }

  /** An entry that was not there before gets the fixed part of its first occurrence. */
  lemma {:induction false} PutAllCreates<F(!new), M(!new)>(
      shelf: Shelf<F, M>, rs: seq<Resource<F, M>>, broker: Name, protects: bool, refused: set<Name>, n: Name)
    requires PutAll(shelf, rs, broker, protects, refused).1 && n !in shelf
    ensures var s := PutAll(shelf, rs, broker, protects, refused).0;
      match FirstOf(rs, n)
      case None => n !in s
      case Some(r) => n in s && s[n].fixed == r.fixed && s[n].broker == broker
  {
    if rs != [] {
      PutAllCreates(shelf, rs[..|rs| - 1], broker, protects, refused, n);
    }
  }

  lemma {:induction false} LastOfIsThere<F(!new), M(!new)>(rs: seq<Resource<F, M>>, r: Resource<F, M>)
    requires r in rs
    ensures LastOf(rs, r.name).Some?
  {
    if Last(rs) != r { LastOfIsThere(rs[..|rs| - 1], r); }
  }

  /** Every list names its entries by their external ID, as conversion does. */
  ghost predicate NamedByID<F(!new), M(!new)>(rs: seq<Resource<F, M>>) {
    forall r :: r in rs ==> r.name == r.externalID
  }

  lemma {:induction false} LastOfName<F(!new), M(!new)>(rs: seq<Resource<F, M>>, n: Name)
    requires NamedByID(rs) && LastOf(rs, n).Some?
    ensures LastOf(rs, n).value.externalID == n
  {
    assert Last(rs) in rs;
    if Last(rs).name != n { LastOfName(rs[..|rs| - 1], n); }
  }

  /** Publishing the same list again succeeds and changes nothing, even if it names an entry twice. */
  lemma PutAllIsIdempotent<F(!new), M(!new)>(
      shelf: Shelf<F, M>, rs: seq<Resource<F, M>>, broker: Name, protects: bool, refused: set<Name>)
    requires PutAll(shelf, rs, broker, protects, refused).1 && NamedByID(rs)
    ensures var s := PutAll(shelf, rs, broker, protects, refused).0;
      PutAll(s, rs, broker, protects, refused) == (s, true)
  {
    var s := PutAll(shelf, rs, broker, protects, refused).0;
    forall n ensures match LastOf(rs, n)
      case None => true
      case Some(r) => n in s && s[n].externalID == r.externalID && s[n].changing == r.changing
    {
      PutAllPublishes(shelf, rs, broker, protects, refused, n);
    }
    forall r | r in rs
      ensures r.name in s && s[r.name].externalID == r.externalID && r.name !in refused
      ensures protects ==> s[r.name].broker == broker
    {
      LastOfIsThere(rs, r);
      LastOfName(rs, r.name);
      PutAllPublishes(shelf, rs, broker, protects, refused, r.name);
    }
    PutAllOverwrites(s, rs, broker, protects, refused);
    assert PutAll(s, rs, broker, protects, refused).0 == s;
  }
}
