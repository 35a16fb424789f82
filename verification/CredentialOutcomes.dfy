/**
  What every pass over a credential leads to: which call it makes, and what each reply leaves
  behind, in the secret as well as in the status.
 */
module CredentialOutcomes {
  import opened Common
  import opened Credentials
  import opened CredentialSteps
  import opened CredentialRuns
  import opened CredentialTheorems
  import CredentialValidation
  import Instances

  // ---------- What may become of an operation ----------

  /** The operation is over and the generation counts as reconciled. */
  ghost predicate Ended(n: Credential) {
    n.operation == NoOperation && n.start.None? && !n.orphan && n.inProgress.None? && n.reconciled == n.generation
  }

  /** The operation goes on as it was. */
  ghost predicate GoesOn(b: Credential, n: Credential) {
    n.operation == b.operation && n.orphan == b.orphan && n.reconciled == b.reconciled
  }

  /** Orphan mitigation begins, under the same operation and without a window yet. */
  ghost predicate Orphans(b: Credential, n: Credential) {
    n.operation == b.operation && n.orphan && n.start.None? && n.inProgress.None? && n.reconciled == b.reconciled
  }

  /** No reply changes the server's metadata. */
  ghost predicate SameSpec(b: Credential, n: Credential) {
    n.generation == b.generation && n.deleted == b.deleted
  }

  ghost predicate Sets(b: Credential, status: ConditionStatus, t: Time, n: Credential) {
    n.ready == SetCond(b.ready, status, t)
  }

  ghost predicate Fails(b: Credential, t: Time, n: Credential) {
    n.failed == SetCond(b.failed, ConditionTrue, t)
  }

  /** The pass wrote a last status and succeeded if that was reported as done. */
  predicate Reports(tr: Trace, ok: bool) {
    tr.final.Some? && tr.failed == !ok
  }

  predicate Retries(tr: Trace) {
    tr.final.Some? && tr.failed
  }

  predicate Mitigates(code: int) {
    201 <= code <= 299 || code == 408 || 500 <= code <= 599
  }

  predicate Late(start: Option<Time>, retry: Time, t: Time) {
    start.Some? && start.value + retry <= t
  }

  // ---------- Replies to Bind ----------

  /** What each reply to Bind, and the secret, make of version `b`. */
  ghost predicate BindOutcomeOf(b: Credential, x: Inputs, retry: Time, tr: Trace, n: Credential) {
    var filled := x.bind.BindDone? && x.injected;
    && SameSpec(b, n) && n.finalizer == b.finalizer && !tr.eject && (tr.inject <==> x.bind.BindDone?)
    && Sets(b, if filled then ConditionTrue else ConditionFalse, x.t1, n)
    && n.external == (if x.bind.BindDone? then x.properties else b.external)
    && match x.bind
       case BindTimeout => Fails(b, x.t1, n) && Orphans(b, n) && Reports(tr, x.okFinal)
       case BindHttpError(code) =>
         Fails(b, x.t1, n) && (if Mitigates(code) then Orphans(b, n) else Ended(n)) && Reports(tr, x.okFinal)
       case BindError =>
         if Late(b.start, retry, x.t1) then Fails(b, x.t1, n) && Ended(n) && Reports(tr, x.okFinal)
         else GoesOn(b, n) && n.start == b.start && n.inProgress == x.properties && n.failed == b.failed && Retries(tr)
       case BindDone(_) =>
         if x.injected then Ended(n) && n.failed == b.failed && Reports(tr, x.okFinal)
         else if Late(b.start, retry, x.t1) then Fails(b, x.t1, n) && Orphans(b, n) && Reports(tr, x.okFinal)
         else GoesOn(b, n) && n.start == b.start && n.inProgress == x.properties && n.failed == b.failed && Retries(tr)
  }

  /** The version that results from a call made while `b` was in force. */
  function Result(b: Credential, tr: Trace): Credential {
    if tr.final.Some? then PrepareForStatusUpdate(tr.final.value, b) else b
  }

  ghost predicate AsksBind(b: Credential, x: Inputs, tr0: Trace) {
    && x.properties.Some? && !b.orphan && b.start.Some?
    && tr0.final.None? && !tr0.failed && !tr0.eject && !tr0.inject
  }

  /** Setting a condition twice to the same status is setting it once. */
  lemma SetTwice(c: Option<Cond>, status: ConditionStatus, t: Time)
    ensures SetCond(SetCond(c, status, t), status, t) == SetCond(c, status, t)
  {
  }

  lemma InjectedOutcome(tr0: Trace, b: Credential, x: Inputs, retry: Time)
    requires AsksBind(b, x, tr0) && x.bind.BindDone? && x.injected
    ensures var tr := SendBind(tr0, b.(inProgress := x.properties), x, retry);
      BindOutcomeOf(b, x, retry, tr, Result(b, tr))
  {
    hide SetCond;
  }

  lemma NotInjectedOutcome(tr0: Trace, b: Credential, x: Inputs, retry: Time)
    requires AsksBind(b, x, tr0) && x.bind.BindDone? && !x.injected
    ensures var tr := SendBind(tr0, b.(inProgress := x.properties), x, retry);
      BindOutcomeOf(b, x, retry, tr, Result(b, tr))
  {
    SetTwice(b.ready, ConditionFalse, x.t1);
    hide SetCond;
  }

  lemma BindRefusedOutcome(tr0: Trace, b: Credential, x: Inputs, retry: Time)
    requires AsksBind(b, x, tr0) && (x.bind.BindTimeout? || x.bind.BindHttpError?)
    ensures var tr := SendBind(tr0, b.(inProgress := x.properties), x, retry);
      BindOutcomeOf(b, x, retry, tr, Result(b, tr))
  {
    hide SetCond;
  }

  lemma BindErrorOutcome(tr0: Trace, b: Credential, x: Inputs, retry: Time)
    requires AsksBind(b, x, tr0) && x.bind.BindError?
    ensures var tr := SendBind(tr0, b.(inProgress := x.properties), x, retry);
      BindOutcomeOf(b, x, retry, tr, Result(b, tr))
  {
    hide SetCond;
  }

  /** In every reachable state, each reply to Bind leads exactly there. */
  lemma BindLeadsTo(w: World, from: nat, x: Inputs)
    requires Reachable(w) && from < |w.history| && GoodInputs(x)
    requires Reconcile(w.history[from].state, x, w.retry).call.CallBind?
    ensures var s := w.history[from].state;
      var tr := Reconcile(s, x, w.retry);
      BindOutcomeOf(AfterIntent(s, tr), x, w.retry, tr, AfterFinal(s, tr)) && x.properties == Some(tr.call.properties)
  {
    hide Reconcile, SendBind, SendUnbind, HoldInv, BoundInv, FaithfulInv, SecretInv, ReleasedProperly, Timely, Ordered, Later, Follows, BindOutcomeOf;
    ReachableInv(w);
    GoodAt(w.history, from);
    var s := w.history[from].state;
    var tr := Reconcile(s, x, w.retry);
    var b := AfterIntent(s, tr);
    ReconcileShape(s, x, w.retry);
    ReconcileAdvances(s, x, w.retry);
    var tr0 := IDLE.(intent := tr.intent);
    match x.bind
    case BindDone(_) =>
      if x.injected { InjectedOutcome(tr0, b, x, w.retry); } else { NotInjectedOutcome(tr0, b, x, w.retry); }
    case BindTimeout => BindRefusedOutcome(tr0, b, x, w.retry);
    case BindHttpError(_) => BindRefusedOutcome(tr0, b, x, w.retry);
    case BindError => BindErrorOutcome(tr0, b, x, w.retry);
  }

  /** A bind request makes the credential ready if and only if the broker says it is done and the secret was filled. */
  lemma ReadyIffInjected(w: World, from: nat, x: Inputs)
    requires Reachable(w) && from < |w.history| && GoodInputs(x)
    requires Reconcile(w.history[from].state, x, w.retry).call.CallBind?
    ensures var s := w.history[from].state;
      var tr := Reconcile(s, x, w.retry);
      var n := AfterFinal(s, tr);
      && (IsReady(n) <==> x.bind.BindDone? && x.injected)
      && (x.bind.BindDone? ==> n.external == Some(tr.call.properties))
      && (IsReady(n) ==>
            && PhaseOf(n) == Bound && !IsFailed(n) && n.operation == NoOperation
            && n.reconciled == n.generation && (x.okFinal ==> !tr.failed))
      && (x.bind.BindDone? && !x.injected ==> Is(n.ready, ConditionFalse))
  {
    hide Reconcile, SendBind, SendUnbind, HoldInv, BoundInv, FaithfulInv, SecretInv, ReleasedProperly, Timely, Ordered, Later, Follows;
    BindLeadsTo(w, from, x);
    ReachableInv(w);
    GoodAt(w.history, from);
    ReconcileAdvances(w.history[from].state, x, w.retry);
    CallsFollowIntents(w.history[from].state, x, w.retry);
  }

  // ---------- Replies to Unbind ----------

  /** The start of the window: mitigation opens it with its first call. */
  function WindowStart(b: Credential, t: Time): Option<Time> {
    if b.orphan && b.start.None? then Some(t) else b.start
  }

  ghost predicate UnbindOutcomeOf(b: Credential, x: Inputs, retry: Time, tr: Trace, n: Credential) {
    var start := WindowStart(b, x.t0);
    && SameSpec(b, n) && tr.eject && !tr.inject
    && Sets(b, if x.unbind.UnbindDone? then ConditionFalse else ConditionUnknown, x.t1, n)
    && n.external == (if x.unbind.UnbindDone? then None else b.external)
    && n.finalizer == (b.finalizer && !(x.unbind.UnbindDone? && !b.orphan))
    && match x.unbind
       case UnbindDone => Ended(n) && n.failed == b.failed && Reports(tr, x.okFinal)
       case UnbindHttpError =>
         Ended(n) && (if b.orphan then n.failed == b.failed else Fails(b, x.t1, n)) && Reports(tr, x.okFinal)
       case UnbindError =>
         if Late(start, retry, x.t1) then Ended(n) && Fails(b, x.t1, n) && Reports(tr, x.okFinal)
         else GoesOn(b, n) && n.start == start && n.inProgress == b.inProgress && n.failed == b.failed && Retries(tr)
  }

  lemma UnbindOutcomes(tr0: Trace, b: Credential, x: Inputs, retry: Time)
    requires (b.orphan || b.start.Some?) && tr0.final.None? && !tr0.failed && tr0.eject && !tr0.inject
    ensures var tr := SendUnbind(tr0, if b.orphan && b.start.None? then b.(start := Some(x.t0)) else b, x, retry);
      UnbindOutcomeOf(b, x, retry, tr, Result(b, tr))
  {
    hide SetCond;
    match x.unbind
    case UnbindDone =>
    case UnbindHttpError =>
    case UnbindError =>
  }

  /** In every reachable state, each reply to Unbind leads exactly there. */
  lemma UnbindLeadsTo(w: World, from: nat, x: Inputs)
    requires Reachable(w) && from < |w.history| && GoodInputs(x)
    requires Reconcile(w.history[from].state, x, w.retry).call == CallUnbind
    ensures var s := w.history[from].state;
      var tr := Reconcile(s, x, w.retry);
      UnbindOutcomeOf(AfterIntent(s, tr), x, w.retry, tr, AfterFinal(s, tr))
  {
    hide Reconcile, SendBind, SendUnbind, HoldInv, BoundInv, FaithfulInv, SecretInv, ReleasedProperly, Timely, Ordered, Later, Follows, UnbindOutcomeOf;
    ReachableInv(w);
    GoodAt(w.history, from);
    var s := w.history[from].state;
    var tr := Reconcile(s, x, w.retry);
    ReconcileShape(s, x, w.retry);
    ReconcileAdvances(s, x, w.retry);
    UnbindOutcomes(IDLE.(eject := true, intent := tr.intent), AfterIntent(s, tr), x, w.retry);
  }

  // ---------- Which call a pass makes ----------

  /** The instance is there and idle, and its plan can be bound. */
  predicate Reaches(x: Inputs) {
    && x.instance.Some? && !x.instance.value.async && x.instance.value.classRef.Some? && x.instance.value.planRef.Some?
    && x.lookup.Found? && x.bindable
  }

  predicate Binds(s: Credential, x: Inputs) {
    && !s.deleted && !s.orphan && !IsFailed(s) && s.reconciled == 0 && Reaches(x)
    && x.namespaceFound && Instances.IsReady(x.instance.value) && x.properties.Some?
    && (s.operation == NoOperation ==> x.okIntent)
  }

  predicate Ejects(s: Credential, x: Inputs) {
    (s.deleted || s.orphan) && s.finalizer && Reaches(x)
  }

  predicate Unbinds(s: Credential, x: Inputs) {
    Ejects(s, x) && x.ejected && (s.operation == NoOperation ==> x.okIntent)
  }

  lemma GoodPassCalls(s: Credential, x: Inputs, retry: Time)
    requires Good(s) && GoodInputs(x)
    ensures var tr := Reconcile(s, x, retry);
      && (tr.call.CallBind? <==> Binds(s, x)) && (tr.call == CallUnbind <==> Unbinds(s, x))
      && (tr.eject <==> Ejects(s, x))
  {
    hide SendBind, SendUnbind;
  }

  /** In every reachable state: the exact condition of each call, and of the deletion of the secret. */
  lemma PassCalls(w: World, from: nat, x: Inputs)
    requires Reachable(w) && from < |w.history| && GoodInputs(x)
    ensures var s := w.history[from].state;
      var tr := Reconcile(s, x, w.retry);
      && (tr.call.CallBind? <==> Binds(s, x)) && (tr.call == CallUnbind <==> Unbinds(s, x))
      && (tr.eject <==> Ejects(s, x))
  {
    hide Reconcile, Ordered, HoldInv, BoundInv, FaithfulInv, SecretInv, ReleasedProperly, Timely, Binds, Unbinds, Ejects;
    ReachableInv(w);
    GoodAt(w.history, from);
    GoodPassCalls(w.history[from].state, x, w.retry);
  }

  // ---------- Intents, and passes without a call ----------

  ghost predicate IntentIs(s: Credential, x: Inputs, tr: Trace) {
    var b := AfterIntent(s, tr);
    tr.intent.Some? ==>
      && s.operation == NoOperation && b.operation == (if s.deleted then Unbind else Bind)
      && b.start == Some(x.t0) && Sets(s, ConditionFalse, x.t0, b)
      && b.inProgress == (if s.deleted then s.inProgress else x.properties)
      && SameSpec(s, b) && b.finalizer == s.finalizer && b.failed == s.failed && b.external == s.external
      && b.orphan == s.orphan && b.reconciled == s.reconciled
  }

  predicate NeedsNothing(s: Credential, x: Inputs) {
    if s.deleted then !s.finalizer && Reaches(x) else !s.orphan && (IsFailed(s) || s.reconciled > 0)
  }

  /** The pass is not an error though it could not proceed. */
  predicate Waits(s: Credential, x: Inputs) {
    && x.instance.Some? && !x.instance.value.async && x.instance.value.classRef.Some? && x.instance.value.planRef.Some?
    && x.lookup.Found?
    && (!x.bindable || (!s.deleted && !s.orphan && x.namespaceFound && !Instances.IsReady(x.instance.value)))
  }

  /** A pass without a call changes at most the ready condition, and fails unless it waits or needs nothing. */
  ghost predicate SilentOutcome(s: Credential, x: Inputs, tr: Trace) {
    var b, n := AfterIntent(s, tr), AfterFinal(s, tr);
    && SameSpec(b, n) && GoesOn(b, n) && n.start == b.start && n.inProgress == b.inProgress && n.external == b.external
    && n.failed == b.failed && n.finalizer == b.finalizer && !tr.inject
    && (tr.final.Some? ==> Sets(b, if tr.eject then ConditionUnknown else ConditionFalse, x.t0, n))
    && (NeedsNothing(s, x) <==> tr == IDLE)
    && (Waits(s, x) && !NeedsNothing(s, x) ==> Reports(tr, x.okFinal))
    && (!Waits(s, x) && !NeedsNothing(s, x) ==> tr.failed)
  }

  lemma GoodIntent(s: Credential, x: Inputs, retry: Time)
    requires Good(s) && GoodInputs(x)
    ensures IntentIs(s, x, Reconcile(s, x, retry))
  {
    hide SendBind, SendUnbind, SetCond;
  }

  lemma SilentObstacle(s: Credential, x: Inputs, retry: Time)
    requires Good(s) && GoodInputs(x) && Reconcile(s, x, retry).call == NoCall && !Reaches(x)
    ensures SilentOutcome(s, x, Reconcile(s, x, retry))
  {
    hide SendBind, SendUnbind, SetCond;
  }

  lemma SilentBind(s: Credential, x: Inputs, retry: Time)
    requires Good(s) && GoodInputs(x) && Reconcile(s, x, retry).call == NoCall && Reaches(x) && !s.deleted && !s.orphan
    ensures SilentOutcome(s, x, Reconcile(s, x, retry))
  {
    hide SendBind, SendUnbind, SetCond;
  }

  lemma SilentUnbind(s: Credential, x: Inputs, retry: Time)
    requires Good(s) && GoodInputs(x) && Reconcile(s, x, retry).call == NoCall && Reaches(x) && (s.deleted || s.orphan)
    ensures SilentOutcome(s, x, Reconcile(s, x, retry))
  {
    hide SendBind, SendUnbind, SetCond;
  }

  /** In every reachable state: an intent names its operation, its start and its request. */
  lemma IntentRecords(w: World, from: nat, x: Inputs)
    requires Reachable(w) && from < |w.history| && GoodInputs(x)
    ensures IntentIs(w.history[from].state, x, Reconcile(w.history[from].state, x, w.retry))
  {
    hide Reconcile, Ordered, HoldInv, BoundInv, FaithfulInv, SecretInv, ReleasedProperly, Timely, IntentIs;
    ReachableInv(w);
    GoodAt(w.history, from);
    GoodIntent(w.history[from].state, x, w.retry);
  }

  lemma SilentPass(w: World, from: nat, x: Inputs)
    requires Reachable(w) && from < |w.history| && GoodInputs(x)
    requires Reconcile(w.history[from].state, x, w.retry).call == NoCall
    ensures SilentOutcome(w.history[from].state, x, Reconcile(w.history[from].state, x, w.retry))
  {
    hide Reconcile, Ordered, HoldInv, BoundInv, FaithfulInv, SecretInv, ReleasedProperly, Timely, SilentOutcome;
    ReachableInv(w);
    GoodAt(w.history, from);
    var s := w.history[from].state;
    if !Reaches(x) {
      SilentObstacle(s, x, w.retry);
    } else if !s.deleted && !s.orphan {
      SilentBind(s, x, w.retry);
    } else {
      SilentUnbind(s, x, w.retry);
    }
  }

  // ---------- Readiness is reached ----------

  const EXAMPLE_START :=
    World(0, [Version(CREATED, 0, Creation)], false, 0, 1, true, Broker(false, false, false, false, [], [], false, true), None)

  /** One pass over a created credential makes it ready and fills its secret, for every payload that serializes. */
  lemma ReadyIsReachable(p: Properties, i: Instances.Instance, payload: Payload) returns (e: Event, w: World)
    requires WellFormed(p) && Instances.IsReady(i) && !i.async && i.classRef.Some? && i.planRef.Some?
    requires SerializeAll(payload).Some?
    ensures e.Pass? && e.from == 0 && e.inputs.instance == Some(i)
    ensures Legal(EXAMPLE_START, e) && w == Next(EXAMPLE_START, e) && Reachable(w) && !w.gone && w.validates && w.history != []
    ensures IsReady(Stored(w)) && Stored(w).external == Some(p) && Carries(w.secret, w.uid, w.broker)
    ensures w.secret.Some? && SerializeAll(payload) == Some(w.secret.value.data)
  {
    var x := Inputs(Some(i), Found, true, true, Some(p), BindDone(payload), true, true, UnbindDone, 0, 0, true, true);
    e := Pass(0, x, Commits(true, true), SecretAccess(false, Written, NotWritten), true);
    w := Next(EXAMPLE_START, e);
    hide SerializeAll;
    RunsFrom(EXAMPLE_START, e, [], w);
    ReadyHasSecret(w);
  }

  // ---------- Secrets, and the owners of the fields ----------

  /** Injection succeeds exactly if it can, and leaves the payload under the credential's control; otherwise nothing new is there. */
  lemma InjectionSucceeds(secret: Option<Secret>, uid: nat, p: Payload, getFails: bool, write: SecretWrite)
    ensures var (after, ok) := Inject(secret, uid, p, getFails, write);
      var can := SerializeAll(p).Some? && !getFails && (secret.Some? ==> ControlledBy(secret.value, uid));
      && (ok <==> can && write.Written?)
      && (after == secret || (can && !write.NotWritten?))
      && (ok ==> after.Some? && ControlledBy(after.value, uid) && Some(after.value.data) == SerializeAll(p))
      && (ok && secret.Some? ==> after.value.owners == secret.value.owners)
  {
  }

  /** The data has a key for each key of the payload, strings verbatim and everything else in its JSON form. */
  lemma PayloadIsSerialized(p: Payload)
    ensures SerializeAll(p).Some? <==> forall k :: k in p && p[k].Structured? ==> p[k].json.Some?
    ensures SerializeAll(p).Some? ==>
      && SerializeAll(p).value.Keys == p.Keys
      && forall k :: k in p ==> SerializeAll(p).value[k] == if p[k].Text? then p[k].text else p[k].json.value
  {
    if forall k :: k in p && p[k].Structured? ==> p[k].json.Some? {
      assert forall k :: k in p ==> Serialize(p[k]).Some?;
    }
  }

  /** A status update keeps what the server owns and takes the rest; a main update takes nothing but finalizers. */
  lemma UpdatesOwn(status: Credential, main: Credential, stored: Credential)
    ensures var a := PrepareForStatusUpdate(status, stored);
      && a.generation == stored.generation && a.deleted == stored.deleted && a.finalizer == status.finalizer
      && SameStatus(status, a)
      && SameStatus(a, PrepareForUpdate(main, a)) && SameSpec(a, PrepareForUpdate(main, a))
      && PrepareForUpdate(main, a).finalizer == main.finalizer
  {
  }

  ghost predicate SameStatus(s: Credential, r: Credential) {
    && r.ready == s.ready && r.failed == s.failed && r.operation == s.operation && r.start == s.start
    && r.orphan == s.orphan && r.inProgress == s.inProgress && r.external == s.external && r.reconciled == s.reconciled
  }

  /** Ejection that is reported as done leaves no secret, and it is reported exactly if the deletion is. */
  lemma EjectionRemoves(secret: Option<Secret>, write: SecretWrite)
    ensures var (after, ok) := Eject(secret, write);
      && (ok <==> write.Written?) && (ok ==> after.None?) && (after == secret || after.None?)
      && (write.NotWritten? ==> after == secret)
  {
  }

  /** The step that releases a credential leaves no secret under its name. */
  lemma ReleaseLeavesNoSecret(w: World, e: Event)
    requires Reachable(w) && Legal(w, e) && Stored(w).finalizer && Next(w, e).history != [] && !Stored(Next(w, e)).finalizer
    ensures e.Pass? && e.inputs.unbind.UnbindDone? && Next(w, e).secret.None? && !Next(w, e).broker.held
  {
    hide Reconcile, SendBind, SendUnbind, HoldInv, BoundInv, FaithfulInv, SecretInv, ReleasedProperly, Timely, Later, Follows;
    ReachableInv(w);
    if e.Pass? {
      var s := w.history[e.from].state;
      GoodAt(w.history, e.from);
      CallsFollowIntents(s, e.inputs, w.retry);
      FinalAccounts(s, e.inputs, w.retry);
      EjectionRemoves(w.secret, e.access.eject);
    }
  }

  /** Every created credential is new, of the first generation, and acceptable to creation. */
  lemma CreatedIsNew()
    ensures PhaseOf(CREATED) == New && CREATED.generation == 1 && !CREATED.deleted && CREATED.finalizer
    ensures CREATED.ready.None? && CREATED.failed.None?
    ensures CredentialValidation.ValidStatus(CREATED, true) && CredentialValidation.ValidGeneration(CREATED, true)
  {
  }
}
