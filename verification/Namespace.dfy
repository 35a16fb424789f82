/**
  A namespace: any number of instances and credentials, created, deleted and created again, that
  look at each other. Passes are atomic and read the stored versions: an instance pass lists the
  credentials that exist, a credential pass gets the instance that has the name it refers to.
 */
module Namespace {
  import opened Common
  import opened Instances
  import InstanceSteps
  import InstanceCalls
  import InstanceRuns
  import InstanceValidation
  import CredentialSteps
  import CredentialRuns
  import Credentials
  import InstanceOutcomes
  import InstanceTheorems
  import CredentialOutcomes

  /** An instance under its name, and a credential with the name of the instance it refers to. */
  datatype NamedInstance = NamedInstance(name: Name, world: InstanceRuns.World)

  datatype NamedCredential = NamedCredential(instance: Name, world: CredentialRuns.World)

  /** Everything that ever existed, by UID. */
  datatype State = State(instances: map<nat, NamedInstance>, credentials: map<nat, NamedCredential>)

  /** The instance with this UID exists under this name. */
  ghost predicate Exists(n: State, uid: nat, name: Name) {
    uid in n.instances && n.instances[uid].name == name &&
    !n.instances[uid].world.gone && n.instances[uid].world.history != []
  }

  /** The credential with this UID exists and refers to this instance name. */
  ghost predicate RefersTo(n: State, uid: nat, name: Name) {
    uid in n.credentials && n.credentials[uid].instance == name &&
    !n.credentials[uid].world.gone && n.credentials[uid].world.history != []
  }

  function StoredInstance(n: State, uid: nat): Instance
    requires uid in n.instances && n.instances[uid].world.history != []
  {
    InstanceRuns.Stored(n.instances[uid].world)
  }

  function StoredCredential(n: State, uid: nat): Credentials.Credential
    requires uid in n.credentials && n.credentials[uid].world.history != []
  {
    CredentialRuns.Stored(n.credentials[uid].world)
  }

  // ---------- Runs ----------

  datatype Event =
    | CreateInstance(uid: nat, instance: NamedInstance)
    | CreateCredential(uid: nat, credential: NamedCredential)
    | InstanceStep(uid: nat, step: InstanceRuns.Event)
    | CredentialStep(uid: nat, event: CredentialRuns.Event)

  ghost predicate Lists(n: State, name: Name, listing: Listing) {
    && (listing.NoCredentials? ==> forall k :: !RefersTo(n, k, name))
    && (listing.SomeCredentials? ==> exists k :: RefersTo(n, k, name))
  }

  ghost predicate Gets(n: State, name: Name, instance: Option<Instance>) {
    match instance
    case None => forall u :: !Exists(n, u, name)
    case Some(i) => exists u :: Exists(n, u, name) && StoredInstance(n, u) == i
  }

  ghost predicate Legal(n: State, e: Event) {
    match e
    case CreateInstance(uid, i) =>
      uid !in n.instances && InstanceRuns.Init(i.world) && forall u :: !Exists(n, u, i.name)
    case CreateCredential(uid, c) =>
      uid !in n.credentials && CredentialRuns.Init(c.world)
    case InstanceStep(uid, step) =>
      && uid in n.instances && n.instances[uid].world.history != []
      && InstanceRuns.Legal(n.instances[uid].world, step)
      && (step.Pass? ==>
            && Exists(n, uid, n.instances[uid].name)
            && step.from + 1 == |n.instances[uid].world.history|
            && Lists(n, n.instances[uid].name, step.inputs.credentials))
    case CredentialStep(uid, event) =>
      && uid in n.credentials && n.credentials[uid].world.history != []
      && CredentialRuns.Legal(n.credentials[uid].world, event)
      && (event.Pass? ==>
            && RefersTo(n, uid, n.credentials[uid].instance)
            && event.from + 1 == |n.credentials[uid].world.history|
            && Gets(n, n.credentials[uid].instance, event.inputs.instance))
  }

  ghost function Next(n: State, e: Event): State
    requires Legal(n, e)
  {
    match e
    case CreateInstance(uid, i) => n.(instances := n.instances[uid := i])
    case CreateCredential(uid, c) => n.(credentials := n.credentials[uid := c])
    case InstanceStep(uid, step) =>
      var i := n.instances[uid];
      n.(instances := n.instances[uid := i.(world := InstanceRuns.Next(i.world, step))])
    case CredentialStep(uid, event) =>
      var c := n.credentials[uid];
      n.(credentials := n.credentials[uid := c.(world := CredentialRuns.Next(c.world, event))])
  }

  ghost predicate Runs(n: State, es: seq<Event>, n': State)
    decreases |es|
  {
    if es == [] then n' == n
    else Legal(n, es[0]) && Runs(Next(n, es[0]), es[1..], n')
  }

  const EMPTY := State(map[], map[])

  ghost predicate Reachable(n: State) {
    exists es :: Runs(EMPTY, es, n)
  }

  // ---------- The invariant ----------

  /** Provisioned, and no removal on record. */
  predicate Usable(i: Instance) {
    InstanceSteps.PhaseOf(i) in {InstanceSteps.Ready, InstanceSteps.Unready}
  }

  /** A ready credential refers to a usable instance. */
  ghost predicate Backed(n: State, k: nat)
    requires k in n.credentials && n.credentials[k].world.history != []
  {
    Credentials.IsReady(StoredCredential(n, k)) ==>
      exists u :: Exists(n, u, n.credentials[k].instance) && Usable(StoredInstance(n, u))
  }

  ghost predicate GoodInstance(w: InstanceRuns.World) {
    w.history != [] && InstanceRuns.Inv(w)
  }

  /** A removed credential had lost its finalizer. */
  ghost predicate GoodCredential(w: CredentialRuns.World) {
    w.history != [] && CredentialRuns.Inv(w) && (w.gone ==> !CredentialRuns.Stored(w).finalizer)
  }

  ghost predicate Inv(n: State) {
    && (forall u :: u in n.instances ==> GoodInstance(n.instances[u].world))
    && (forall k :: k in n.credentials ==> GoodCredential(n.credentials[k].world))
    && (forall u, v, name :: Exists(n, u, name) && Exists(n, v, name) ==> u == v)
    && (forall k :: k in n.credentials ==> Backed(n, k))
  }

  /** A usable instance stays usable, unless a pass that saw no credential records its removal. */
  lemma StaysUsable(w: InstanceRuns.World, e: InstanceRuns.Event)
    requires InstanceRuns.Inv(w) && InstanceRuns.Legal(w, e) && !w.gone && Usable(InstanceRuns.Stored(w))
    requires e.Pass? ==> e.from + 1 == |w.history| && !e.inputs.credentials.NoCredentials?
    ensures !InstanceRuns.Next(w, e).gone && Usable(InstanceRuns.Stored(InstanceRuns.Next(w, e)))
  {
    hide InstanceSteps.Good, InstanceSteps.Later, InstanceRuns.BrokerInv, InstanceRuns.Timely, InstanceValidation.Valid, Reconcile;
    if e.Pass? {
      UsablePass(InstanceRuns.Stored(w), e.inputs, w.retry);
    }
  }

  lemma UsablePass(s: Instance, x: Inputs, retry: Time)
    requires InstanceSteps.Good(s) && Usable(s) && !x.credentials.NoCredentials?
    ensures var tr := Reconcile(s, x, retry);
      tr.references.None? && tr.intent.None? && Usable(InstanceSteps.AfterFinal(s, tr))
  {
  }

  /** A credential becomes ready only in a pass that got a ready instance. */
  lemma BecomesReady(w: CredentialRuns.World, e: CredentialRuns.Event)
    requires CredentialRuns.Inv(w) && CredentialRuns.Legal(w, e)
    requires !Credentials.IsReady(CredentialRuns.Stored(w))
    requires Credentials.IsReady(CredentialRuns.Stored(CredentialRuns.Next(w, e)))
    ensures e.Pass? && e.inputs.instance.Some? && IsReady(e.inputs.instance.value)
  {
    hide CredentialSteps.Good, CredentialSteps.Later, CredentialSteps.Follows, Credentials.Reconcile;
    if e.Pass? {
      CredentialSteps.CallsFollowIntents(w.history[e.from].state, e.inputs, w.retry);
      CredentialSteps.FinalAccounts(w.history[e.from].state, e.inputs, w.retry);
    }
  }

  lemma CredentialStaysGood(w: CredentialRuns.World, e: CredentialRuns.Event)
    requires GoodCredential(w) && CredentialRuns.Legal(w, e)
    ensures GoodCredential(CredentialRuns.Next(w, e))
  {
    CredentialRuns.StepKeepsInv(w, e);
    hide CredentialRuns.Inv, Credentials.Reconcile;
    assert CredentialRuns.Next(w, e).history != [];
  }

  lemma InstanceStaysGood(w: InstanceRuns.World, e: InstanceRuns.Event)
    requires GoodInstance(w) && InstanceRuns.Legal(w, e)
    ensures GoodInstance(InstanceRuns.Next(w, e))
    ensures w.history <= InstanceRuns.Next(w, e).history && (w.gone ==> InstanceRuns.Next(w, e).gone)
  {
    InstanceRuns.StepKeepsInv(w, e);
    StepGrows(w, e);
  }

  lemma StepGrows(w: InstanceRuns.World, e: InstanceRuns.Event)
    requires w.history != [] && InstanceRuns.Legal(w, e)
    ensures w.history <= InstanceRuns.Next(w, e).history && (w.gone ==> InstanceRuns.Next(w, e).gone)
  {
    hide Reconcile;
  }

  lemma NewIsGood(e: Event)
    ensures e.CreateInstance? && InstanceRuns.Init(e.instance.world) ==> GoodInstance(e.instance.world)
    ensures e.CreateCredential? && CredentialRuns.Init(e.credential.world) ==>
              GoodCredential(e.credential.world) && !Credentials.IsReady(CredentialRuns.Stored(e.credential.world))
  {
  }

  // ---------- Every step keeps it ----------

  /** What makes credential `k` backed in `n` still does in `n'`. */
  ghost predicate KeepsUsable(n: State, n': State) {
    forall u, name :: Exists(n, u, name) && Usable(StoredInstance(n, u)) &&
                      (exists k :: RefersTo(n, k, name)) ==>
      Exists(n', u, name) && Usable(StoredInstance(n', u))
  }

  lemma StaysBacked(n: State, n': State, k: nat)
    requires Inv(n) && KeepsUsable(n, n') && k in n.credentials && k in n'.credentials
    requires n'.credentials[k] == n.credentials[k]
    ensures Backed(n', k)
  {
    hide InstanceRuns.Inv, Usable;
    assert Backed(n, k);
    var name := n.credentials[k].instance;
    if Credentials.IsReady(StoredCredential(n, k)) {
      var u :| Exists(n, u, name) && Usable(StoredInstance(n, u));
      assert RefersTo(n, k, name);
    }
  }

  lemma InstanceCreationKeepsInv(n: State, e: Event)
    requires Inv(n) && Legal(n, e) && e.CreateInstance?
    ensures Inv(Next(n, e))
  {
    hide Usable, InstanceRuns.Inv, CredentialRuns.Inv, InstanceRuns.Init;
    var n' := Next(n, e);
    NewIsGood(e);
    forall u, name | Exists(n', u, name)
      ensures Exists(n, u, name) || (u == e.uid && name == e.instance.name)
    {
    }
    forall k | k in n'.credentials
      ensures Backed(n', k)
    {
      StaysBacked(n, n', k);
    }
  }

  lemma CredentialCreationKeepsInv(n: State, e: Event)
    requires Inv(n) && Legal(n, e) && e.CreateCredential?
    ensures Inv(Next(n, e))
  {
    hide Usable, InstanceRuns.Inv, CredentialRuns.Inv, CredentialRuns.Init;
    var n' := Next(n, e);
    NewIsGood(e);
    forall u, name ensures Exists(n', u, name) == Exists(n, u, name) {}
    forall k | k in n'.credentials && k in n.credentials
      ensures Backed(n', k)
    {
      StaysBacked(n, n', k);
    }
  }

  lemma InstanceStepKeepsInv(n: State, uid: nat, step: InstanceRuns.Event)
    requires Inv(n) && Legal(n, InstanceStep(uid, step))
    ensures Inv(Next(n, InstanceStep(uid, step)))
  {
    hide InstanceRuns.Inv, CredentialRuns.Inv, Usable, InstanceRuns.Legal, Reconcile, InstanceRuns.Next;
    var n' := Next(n, InstanceStep(uid, step));
    var w := n.instances[uid].world;
    InstanceStaysGood(w, step);
    forall u, name | Exists(n', u, name)
      ensures Exists(n, u, name)
    {
    }
    forall u, name | Exists(n, u, name) && Usable(StoredInstance(n, u)) && exists k :: RefersTo(n, k, name)
      ensures Exists(n', u, name) && Usable(StoredInstance(n', u))
    {
      if u == uid { StaysUsable(w, step); }
    }
    forall k | k in n'.credentials
      ensures Backed(n', k)
    {
      StaysBacked(n, n', k);
    }
  }

  lemma CredentialStepKeepsInv(n: State, uid: nat, event: CredentialRuns.Event)
    requires Inv(n) && Legal(n, CredentialStep(uid, event))
    ensures Inv(Next(n, CredentialStep(uid, event)))
  {
    hide InstanceRuns.Inv, CredentialRuns.Inv, Usable, CredentialRuns.Legal, CredentialRuns.Next;
    var n' := Next(n, CredentialStep(uid, event));
    var w := n.credentials[uid].world;
    var w' := CredentialRuns.Next(w, event);
    CredentialStaysGood(w, event);
    forall u, name ensures Exists(n', u, name) == Exists(n, u, name) {}
    forall k | k in n'.credentials
      ensures Backed(n', k)
    {
      if k != uid {
        StaysBacked(n, n', k);
      } else if Credentials.IsReady(CredentialRuns.Stored(w')) {
        NewlyBacked(n, uid, event);
      }
    }
  }

  /** After a step that leaves a credential ready, there is a usable instance under the name. */
  lemma NewlyBacked(n: State, uid: nat, event: CredentialRuns.Event)
    requires Inv(n) && Legal(n, CredentialStep(uid, event))
    requires CredentialRuns.Next(n.credentials[uid].world, event).history != []
    requires Credentials.IsReady(CredentialRuns.Stored(CredentialRuns.Next(n.credentials[uid].world, event)))
    ensures exists u :: Exists(n, u, n.credentials[uid].instance) && Usable(StoredInstance(n, u))
  {
    hide CredentialRuns.Inv, CredentialRuns.Legal, CredentialRuns.Next, InstanceRuns.BrokerInv, InstanceRuns.Timely;
    var w := n.credentials[uid].world;
    assert Backed(n, uid);
    if !Credentials.IsReady(CredentialRuns.Stored(w)) {
      BecomesReady(w, event);
      var u :| Exists(n, u, n.credentials[uid].instance) && StoredInstance(n, u) == event.inputs.instance.value;
      assert GoodInstance(n.instances[u].world);
      assert InstanceSteps.Good(StoredInstance(n, u));
    }
  }

  lemma StepKeepsInv(n: State, e: Event)
    requires Inv(n) && Legal(n, e)
    ensures Inv(Next(n, e))
  {
    match e
    case CreateInstance(_, _) => InstanceCreationKeepsInv(n, e);
    case CreateCredential(_, _) => CredentialCreationKeepsInv(n, e);
    case InstanceStep(uid, step) => InstanceStepKeepsInv(n, uid, step);
    case CredentialStep(uid, event) => CredentialStepKeepsInv(n, uid, event);
  }

  lemma {:induction false} RunKeepsInv(n: State, es: seq<Event>, n': State)
    requires Inv(n) && Runs(n, es, n')
    ensures Inv(n')
    decreases |es|
  {
    if es != [] {
      StepKeepsInv(n, es[0]);
      RunKeepsInv(Next(n, es[0]), es[1..], n');
    }
  }

  lemma ReachableInv(n: State)
    requires Reachable(n)
    ensures Inv(n)
  {
    var es :| Runs(EMPTY, es, n);
    RunKeepsInv(EMPTY, es, n);
  }

  // ---------- Cross-resource safety ----------

  /** Deprovision is never sent in a step in which some credential refers to the instance. */
  lemma DeprovisionSeesNoCredential(n: State, uid: nat, step: InstanceRuns.Event, k: nat)
    requires Reachable(n) && Legal(n, InstanceStep(uid, step))
    requires step.Pass? && Reconcile(StoredInstance(n, uid), step.inputs, n.instances[uid].world.retry).call == CallDeprovision
    ensures !RefersTo(n, k, n.instances[uid].name)
  {
    hide Reconcile;
    ReachableInv(n);
    InstanceCalls.DeprovisionFollowsIntent(StoredInstance(n, uid), step.inputs, n.instances[uid].world.retry);
  }

  /** What the invariant of an instance says while it is usable. */
  lemma UsableIsHeld(w: InstanceRuns.World)
    requires GoodInstance(w) && Usable(InstanceRuns.Stored(w))
    ensures w.broker.held && !w.broker.deprovisionSent && !InstanceRuns.Intended(w.history)
  {
    hide InstanceRuns.Ordered, InstanceRuns.Timely, InstanceValidation.Valid;
  }

  lemma CredentialIsHeld(w: CredentialRuns.World)
    requires GoodCredential(w) && Credentials.IsReady(CredentialRuns.Stored(w))
    ensures w.broker.held && !w.gone
  {
    hide CredentialRuns.SecretInv, CredentialRuns.FaithfulInv, CredentialRuns.Timely;
  }

  /**
    A ready credential refers to an instance that exists, that the broker holds, and whose removal
    was never put on record nor asked for.
   */
  lemma ReadyCredentialIsServed(n: State, k: nat) returns (u: nat)
    requires Reachable(n) && k in n.credentials && n.credentials[k].world.history != []
    requires Credentials.IsReady(StoredCredential(n, k))
    ensures Exists(n, u, n.credentials[k].instance) && RefersTo(n, k, n.credentials[k].instance)
    ensures var w := n.instances[u].world;
      && Usable(InstanceRuns.Stored(w))
      && w.broker.held && !w.broker.deprovisionSent && !InstanceRuns.Intended(w.history)
    ensures n.credentials[k].world.broker.held
  {
    hide InstanceRuns.Inv, CredentialRuns.Inv, Usable, InstanceRuns.Intended;
    ReachableInv(n);
    assert Backed(n, k);
    u :| Exists(n, u, n.credentials[k].instance) && Usable(StoredInstance(n, u));
    UsableIsHeld(n.instances[u].world);
    CredentialIsHeld(n.credentials[k].world);
  }

  /** Once the removal of an instance is on record it stays on record. */
  lemma {:induction false} RecordsLast(n: State, es: seq<Event>, n': State, u: nat)
    requires Runs(n, es, n') && u in n.instances && n.instances[u].world.history != []
    ensures u in n'.instances && n'.instances[u].name == n.instances[u].name
    ensures n.instances[u].world.history <= n'.instances[u].world.history
    ensures InstanceRuns.Intended(n.instances[u].world.history) ==> InstanceRuns.Intended(n'.instances[u].world.history)
    decreases |es|
  {
    if es != [] {
      var n1 := Next(n, es[0]);
      if es[0].InstanceStep? && es[0].uid == u { StepGrows(n.instances[u].world, es[0].step); }
      RecordsLast(n1, es[1..], n', u);
    }
  }

  /**
    Once the intent to deprovision an instance is committed, no credential that refers to it is
    ready, in any later state in which the instance still exists.
   */
  lemma IntentEndsReadiness(n: State, es: seq<Event>, n': State, u: nat, k: nat)
    requires Reachable(n) && Runs(n, es, n')
    requires u in n.instances && n.instances[u].world.history != [] && InstanceRuns.Intended(n.instances[u].world.history)
    requires Exists(n', u, n.instances[u].name) && RefersTo(n', k, n.instances[u].name)
    ensures !Credentials.IsReady(StoredCredential(n', k))
  {
    hide InstanceRuns.Inv, CredentialRuns.Inv, Usable, InstanceRuns.Intended, Runs;
    ReachableInv(n);
    RunKeepsInv(n, es, n');
    RecordsLast(n, es, n', u);
    assert Backed(n', k);
    if Credentials.IsReady(StoredCredential(n', k)) {
      var v :| Exists(n', v, n.instances[u].name) && Usable(StoredInstance(n', v));
      UsableIsHeld(n'.instances[v].world);
    }
  }

  // ---------- Service is reached ----------

  lemma RunsFrom(n: State, e: Event, es: seq<Event>, n': State)
    requires Legal(n, e) && Runs(Next(n, e), es, n')
    ensures Runs(n, [e] + es, n')
  {
    assert ([e] + es)[1..] == es;
  }

  /** Create an instance, provision it, create a credential for it, bind: the credential is ready. */
  lemma ServiceIsReachable(p: Properties, q: Properties, name: Name, payload: Credentials.Payload) returns (n: State)
    requires WellFormed(p) && WellFormed(q) && Credentials.SerializeAll(payload).Some?
    ensures Reachable(n) && RefersTo(n, 0, name) && Exists(n, 0, name)
    ensures Credentials.IsReady(StoredCredential(n, 0)) && IsReady(StoredInstance(n, 0))
    ensures var w := n.credentials[0].world;
      w.secret.Some? && Credentials.SerializeAll(payload) == Some(w.secret.value.data)
  {
    hide InstanceRuns.Legal, InstanceRuns.Next, CredentialRuns.Legal, CredentialRuns.Next, InstanceRuns.Reachable,
         CredentialRuns.Reachable, Credentials.SerializeAll;
    var start := NamedInstance(name, InstanceTheorems.EXAMPLE_START);
    var provision, provisioned := InstanceOutcomes.ReadyIsReachable(p, "class", "plan");
    var bind, bound := CredentialOutcomes.ReadyIsReachable(q, InstanceRuns.Stored(provisioned), payload);
    var e1, e2 := CreateInstance(0, start), InstanceStep(0, provision);
    var e3 := CreateCredential(0, NamedCredential(name, CredentialOutcomes.EXAMPLE_START));
    var e4 := CredentialStep(0, bind);
    var n1 := State(map[0 := start], map[]);
    var n2 := State(map[0 := NamedInstance(name, provisioned)], map[]);
    var n3 := n2.(credentials := map[0 := NamedCredential(name, CredentialOutcomes.EXAMPLE_START)]);
    n := n2.(credentials := map[0 := NamedCredential(name, bound)]);
    assert Legal(EMPTY, e1) && Next(EMPTY, e1) == n1;
    assert Exists(n1, 0, name) && Legal(n1, e2) && Next(n1, e2).instances == n2.instances;
    assert Next(n1, e2) == n2;
    assert Legal(n2, e3) && Next(n2, e3).credentials == n3.credentials;
    assert Exists(n3, 0, name) && RefersTo(n3, 0, name) && Legal(n3, e4) && Next(n3, e4).credentials == n.credentials;
    assert Next(n3, e4) == n;
    RunsFrom(n3, e4, [], n);
    RunsFrom(n2, e3, [e4], n);
    RunsFrom(n1, e2, [e3] + [e4], n);
    RunsFrom(EMPTY, e1, [e2] + ([e3] + [e4]), n);
  }
}
