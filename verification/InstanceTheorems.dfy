/** What holds of an instance in every reachable state and over every run. */
module InstanceTheorems {
  import opened Common
  import opened Instances
  import opened InstanceSteps
  import opened InstanceCalls
  import opened InstanceValidation
  import opened InstanceRuns

  /**
    Write-ahead intent. An instance stored as ready is held by the broker and no removal was ever
    requested, through lost writes, outdated passes and a broker that acts late.
   */
  lemma ReadyIsHeld(w: World)
    requires Reachable(w) && IsReady(Stored(w))
    ensures w.broker.held && !w.broker.deprovisionSent
  {
    hide Timely, Ordered, FaithfulInv, LifeInv;
    ReachableInv(w);
    GoodStored(w);
  }

  /** A deprovision request is sent only while no version is ready and none can become so again. */
  lemma DeprovisionIsFinal(w: World, w': World, es: seq<Event>)
    requires Reachable(w) && w.broker.deprovisionSent && Runs(w, es, w')
    ensures !IsReady(Stored(w'))
  {
    hide Runs, Ordered, Timely, Valid, LifeInv, FaithfulInv;
    ReachableInv(w);
    RunKeepsInv(w, es, w');
    RunExtends(w, es, w');
    GoodStored(w');
  }

  lemma GoodStored(w: World)
    requires Inv(w)
    ensures Good(Stored(w))
  {
  }

  /** Runs only append versions and only add to what was asked of the broker. */
  lemma {:induction false} RunExtends(w: World, es: seq<Event>, w': World)
    requires Runs(w, es, w')
    ensures w.history <= w'.history
    ensures w.broker.deprovisionSent ==> w'.broker.deprovisionSent
    decreases |es|
  {
    if es != [] {
      var w1 := Next(w, es[0]);
      assert w.history <= w1.history;
      RunExtends(w1, es[1..], w');
    }
  }

  // ---------- The life of an instance ----------

  /** Committed versions follow the phase graph and never fall back to a lower rank. */
  lemma PhasesOnlyAdvance(w: World, i: nat, j: nat)
    requires Reachable(w) && i < j < |w.history|
    ensures Rank(w.history[i].state) <= Rank(w.history[j].state)
    ensures j == i + 1 ==> Follows(PhaseOf(w.history[i].state), PhaseOf(w.history[j].state))
  {
    ReachableInv(w);
  }

  predicate Mitigating(i: Instance) { i.orphan }

  predicate Performs(i: Instance, operation: Operation) { i.operation == operation }

  /**
    Provision, Deprovision and orphan mitigation each fill one stretch of the history: what has
    ended never starts again.
   */
  lemma OperationsStartOnce(w: World, i: nat, j: nat, k: nat)
    requires Reachable(w) && i <= j <= k < |w.history|
    ensures var a, b, c := w.history[i].state, w.history[j].state, w.history[k].state;
      && (Performs(a, Provision) && Performs(c, Provision) ==> Performs(b, Provision))
      && (Performs(a, Deprovision) && Performs(c, Deprovision) ==> Performs(b, Deprovision))
      && (Mitigating(a) && Mitigating(c) ==> Mitigating(b))
  {
    hide BrokerInv, Timely, Valid, Follows, Good, Later;
    ReachableInv(w);
    Stretch(w.history[i].state, w.history[j].state, w.history[k].state);
  }

  lemma Stretch(a: Instance, b: Instance, c: Instance)
    requires Good(a) && Good(b) && Good(c) && (a == b || Later(a, b)) && (b == c || Later(b, c))
    ensures Performs(a, Provision) && Performs(c, Provision) ==> Performs(b, Provision)
    ensures Performs(a, Deprovision) && Performs(c, Deprovision) ==> Performs(b, Deprovision)
    ensures Mitigating(a) && Mitigating(c) ==> Mitigating(b)
  {
  }

  /** The catalog finalizer goes only after deletion was requested. */
  lemma ReleaseNeedsDeletion(w: World, i: nat)
    requires Reachable(w) && i < |w.history| && !w.history[i].state.finalizer
    ensures w.history[i].state.deleted
  {
    ReachableInv(w);
  }

  /** The first version is the created one. */
  lemma StartsNew(w: World)
    requires Reachable(w)
    ensures w.history[0].state == CREATED
  {
    var w0, es :| Init(w0) && Runs(w0, es, w);
    RunExtends(w0, es, w);
  }

  /** Only an instance that was ready gets to be unready or deprovisioning. */
  lemma {:induction false} DeprovisionsWhatWasReady(h: seq<Version>, j: nat) returns (i: nat)
    requires Ordered(h) && h[0].state == CREATED && j < |h|
    requires PhaseOf(h[j].state) in {Ready, Unready, Deprovisioning, AsyncDeprovisioning}
    ensures i <= j && IsReady(h[i].state)
  {
    hide Good, Later;
    if IsReady(h[j].state) {
      i := j;
    } else {
      assert Follows(PhaseOf(h[j - 1].state), PhaseOf(h[j].state));
      i := DeprovisionsWhatWasReady(h, j - 1);
    }
  }

  lemma IntendedWasReady(w: World)
    requires Reachable(w) && Intended(w.history)
    ensures WasReady(w.history)
  {
    hide BrokerInv, Timely, Valid;
    ReachableInv(w);
    StartsNew(w);
    var j :| 0 <= j < |w.history| && w.history[j].state.operation == Deprovision;
    assert Good(w.history[j].state);
    var i := DeprovisionsWhatWasReady(w.history, j);
  }

  /**
    Release, exactly. A released instance went through all of it (deletion requested, deprovision
    intent committed, Deprovision sent, and confirmed by the broker or ended by a failure) if and
    only if it was ever ready.
   */
  lemma ReleaseOfReady(w: World)
    requires Reachable(w) && !Stored(w).finalizer
    ensures WasReady(w.history) <==>
      && Stored(w).deleted && Intended(w.history) && w.broker.deprovisionSent
      && (w.broker.confirmed || IsFailed(Stored(w)))
  {
    ReachableInv(w);
    if Intended(w.history) {
      IntendedWasReady(w);
    }
  }

  /**
    The broker of a released instance was asked to remove it if and only if some version recorded a
    removal: a deprovision intent or an orphan mitigation.
   */
  lemma ReleaseWasRequested(w: World)
    requires Reachable(w) && !Stored(w).finalizer
    ensures w.broker.deprovisionSent <==>
      exists i :: 0 <= i < |w.history| && (w.history[i].state.operation == Deprovision || w.history[i].state.orphan)
  {
    hide Ordered, HoldInv, FaithfulInv, Timely, Valid;
    ReachableInv(w);
    var h := w.history;
    if Intended(h) {
      var i :| 0 <= i < |h| && h[i].state.operation == Deprovision;
    }
    if Mitigated(h) {
      var i :| 0 <= i < |h| && h[i].state.orphan;
    }
  }

  /** Without either, the broker may still hold what is released: an instance that was never ready. */
  lemma ReleaseMayLeak(p: Properties, cls: Name, plan: Name)
    requires WellFormed(p)
    ensures exists w :: Reachable(w) && !Stored(w).finalizer && w.broker.held && !w.broker.deprovisionSent
  {
    var x := ExampleInputs(p, cls, plan, ProvisionError);
    var e1 := Pass(0, x, Commits(true, true, true), true);
    var w1 := Next(EXAMPLE_START, e1);
    var w2 := Next(w1, UserDelete(1));
    var e3 := Pass(4, x, Commits(false, false, true), true);
    var w3 := Next(w2, e3);
    FirstPass(p, cls, plan, ProvisionError);
    assert Legal(w2, e3) by { ReleasesUnreconciled(w2, x); }
    assert !Stored(w3).finalizer && w3.broker.held && !w3.broker.deprovisionSent by { ReleasesUnreconciled(w2, x); }
    hide Reconcile, Next, Legal;
    ThreeSteps(e1, UserDelete(1), e3, w1, w2, w3);
  }

  // A small run: a provision request that the broker acts on, then a deletion, then one more pass.

  const EXAMPLE_START := World([Version(CREATED, 0, Creation)], false, 0, 1, true, Broker(false, false, false, [], false, false))

  function ExampleInputs(p: Properties, cls: Name, plan: Name, reply: ProvisionReply): Inputs {
    Inputs(NoCredentials, Some(cls), true, Some(plan), Found, true, Some(p), reply,
           DeprovisionError, PollSucceeded, 0, 0, true, true, true)
  }

  lemma FirstPass(p: Properties, cls: Name, plan: Name, reply: ProvisionReply)
    requires WellFormed(p) && reply in {ProvisionError, ProvisionAccepted(None)}
    ensures var e1 := Pass(0, ExampleInputs(p, cls, plan, reply), Commits(true, true, true), true);
      var w1 := Next(EXAMPLE_START, e1);
      && Legal(EXAMPLE_START, e1) && |w1.history| == 4 && !w1.gone && w1.now == 0 && w1.retry == 1 && w1.validates
      && w1.broker.held && w1.broker.provisionSent && !w1.broker.deprovisionSent
      && Stored(w1) == Instance(1, false, true, Some(cls), Some(plan), Some(Cond(ConditionFalse, 0)), None, Provision, Some(0),
                                reply.ProvisionAccepted?, false, None, Some(p), None, 0)
  {
  }

  /** A deleted instance that was never reconciled is released without a call. */
  lemma ReleasePass(s: Instance, x: Inputs, retry: Time)
    requires s.deleted && s.finalizer && !s.async && !s.orphan && s.reconciled == 0
    requires x.okFinal && x.credentials.NoCredentials?
    ensures Reconcile(s, x, retry) == End(IDLE, s.(finalizer := false), true, LeavePolling)
  {
  }

  lemma ReleasesUnreconciled(w: World, x: Inputs)
    requires w.history != [] && !w.gone && GoodInputs(x) && w.now <= x.t0 && x.okFinal && x.credentials.NoCredentials?
    requires var s := Stored(w); s.deleted && s.finalizer && !s.async && !s.orphan && s.reconciled == 0
    requires w.validates ==> Valid(Stored(w))
    ensures var e := Pass(|w.history| - 1, x, Commits(false, false, true), w.broker.held);
      && Legal(w, e) && !Stored(Next(w, e)).finalizer
      && Next(w, e).broker.held == w.broker.held && Next(w, e).broker.deprovisionSent == w.broker.deprovisionSent
  {
    hide Reconcile, WellFormed, SetCond;
    ReleasePass(Stored(w), x, w.retry);
  }

  lemma ThreeSteps(e1: Event, e2: Event, e3: Event, w1: World, w2: World, w3: World)
    requires w1.history != [] && w2.history != [] && w3.history != []
    requires Legal(EXAMPLE_START, e1) && w1 == Next(EXAMPLE_START, e1)
    requires Legal(w1, e2) && w2 == Next(w1, e2) && Legal(w2, e3) && w3 == Next(w2, e3)
    ensures Reachable(w3)
  {
    hide Legal, Next;
    RunsFrom(w2, e3, [], w3);
    RunsFrom(w1, e2, [e3], w3);
    RunsFrom(EXAMPLE_START, e1, [e2] + [e3], w3);
  }

  // ---------- Conditions ----------

  /** Failed is absorbing, never coexists with Ready, and marks every orphan, whose Provision is still current. */
  lemma FailedIsAbsorbing(w: World, i: nat, j: nat)
    requires Reachable(w) && i <= j < |w.history|
    ensures IsFailed(w.history[i].state) ==> IsFailed(w.history[j].state)
    ensures !(IsFailed(w.history[i].state) && IsReady(w.history[i].state))
    ensures w.history[i].state.orphan ==> IsFailed(w.history[i].state) && w.history[i].state.operation == Provision
  {
    ReachableInv(w);
  }

  /** From a version that shows a failure, no pass sends Provision. */
  lemma FailedSendsNoProvision(w: World, from: nat, x: Inputs)
    requires Reachable(w) && from < |w.history| && IsFailed(w.history[from].state) && GoodInputs(x)
    ensures !Reconcile(w.history[from].state, x, w.retry).call.CallProvision?
  {
    ReachableInv(w);
    ProvisionFollowsIntent(w.history[from].state, x, w.retry);
  }

  // ---------- Nil safety ----------

  /**
    No pass from any version ever follows a nil pointer, and the bail-out for a missing operation
    start time is dead code: an asynchronous operation always has one.
   */
  lemma NoPassCrashes(w: World, from: nat, x: Inputs)
    requires Reachable(w) && from < |w.history| && GoodInputs(x)
    ensures !Reconcile(w.history[from].state, x, w.retry).crashed
    ensures w.history[from].state.async ==> w.history[from].state.start.Some?
  {
    ReachableInv(w);
    ReconcileAdvances(w.history[from].state, x, w.retry);
  }

  // ---------- Properties ----------

  /**
    The external properties of a ready instance are those of a provision request the broker
    acknowledged; of the latest one, unless an outdated pass sent another.
   */
  lemma ExternalIsAcknowledged(w: World)
    requires Reachable(w) && IsReady(Stored(w))
    ensures Stored(w).external.Some? && Faithful(Stored(w).external.value, w.broker)
  {
    ReachableInv(w);
  }

  /** Every committed confirmation of a removal leaves no external properties. */
  lemma ConfirmedRemovalForgets(w: World, i: nat)
    requires Reachable(w) && i < |w.history|
    requires w.history[i].cause.FinalWrite? && w.history[i].cause.confirms
    ensures w.history[i].state.external.None?
  {
    ReachableInv(w);
  }

  // ---------- Deadlines ----------

  /** A poll that reaches the broker past the deadline ends the asynchronous operation, if its write commits. */
  lemma LatePollEndsOperation(w: World, from: nat, x: Inputs, c: Commits, held: bool)
    requires Reachable(w) && Legal(w, Pass(from, x, c, held))
    requires var s := w.history[from].state;
      && Reconcile(s, x, w.retry).call == CallPoll
      && s.start.Some? && Expired(s.start.value, w.retry, x.t1) && c.final
    ensures !Stored(Next(w, Pass(from, x, c, held))).async
  {
    ReachableInv(w);
    RepliesRespectDeadline(w.history[from].state, x, w.retry);
  }

  /** No version still in progress was written after its deadline, except to record an acceptance. */
  lemma RetriesEndAtDeadline(w: World, i: nat)
    requires Reachable(w) && i < |w.history|
    ensures var v := w.history[i];
      v.cause.FinalWrite? && v.cause.call != NoCall && !v.cause.accepted &&
      v.state.operation != NoOperation && v.state.start.Some? ==>
        v.at < v.state.start.value + w.retry
  {
    ReachableInv(w);
  }

  /**
    Over the whole life there is one start time for the provision, one for its orphan mitigation and
    one for the deprovision, so a provision has at most two retry windows and a deprovision one.
   */
  lemma TwoWindows(w: World) returns (own: Time, mitigation: Time, removal: Time)
    requires Reachable(w)
    ensures forall i :: 0 <= i < |w.history| && Performs(w.history[i].state, Provision) && w.history[i].state.start.Some? ==>
      w.history[i].state.start.value == if w.history[i].state.orphan then mitigation else own
    ensures forall i :: 0 <= i < |w.history| && Performs(w.history[i].state, Deprovision) ==>
      w.history[i].state.start == Some(removal)
  {
    hide BrokerInv, Timely, Valid, Ordered;
    ReachableInv(w);
    own := WindowOf(w.history, Provision, false);
    mitigation := WindowOf(w.history, Provision, true);
    removal := WindowOf(w.history, Deprovision, false);
    forall i | 0 <= i < |w.history| && Performs(w.history[i].state, Deprovision)
      ensures !w.history[i].state.orphan && w.history[i].state.start.Some?
    {
      GoodVersion(w.history, i);
    }
  }

  lemma GoodVersion(h: seq<Version>, i: nat)
    requires Ordered(h) && i < |h|
    ensures Good(h[i].state)
  {
  }

  /** The start time of one operation, or of its mitigation, in all versions that have one. */
  lemma WindowOf(h: seq<Version>, operation: Operation, orphan: bool) returns (start: Time)
    requires Ordered(h) && operation != NoOperation
    ensures forall i :: 0 <= i < |h| && Performs(h[i].state, operation) && h[i].state.orphan == orphan && h[i].state.start.Some? ==>
      h[i].state.start.value == start
  {
    hide Good, Follows, PhaseOf;
    start := 0;
    if i :| 0 <= i < |h| && Performs(h[i].state, operation) && h[i].state.orphan == orphan && h[i].state.start.Some? {
      start := h[i].state.start.value;
    }
  }

  // ---------- Validation ----------

  /** Of the versions a pass can submit, exactly those without orphan mitigation and ahead of their reconciliation are valid. */
  predicate Admissible(i: Instance) {
    !i.orphan && (i.operation != NoOperation ==> i.reconciled < i.generation)
  }

  lemma GoodBoundary(i: Instance)
    requires Good(i)
    ensures Valid(i) <==> Admissible(i)
  {
  }

  /** The exact validation boundary: it holds of every status any pass submits, in every run. */
  lemma ValidationBoundary(w: World, from: nat, x: Inputs)
    requires Reachable(w) && from < |w.history| && GoodInputs(x)
    ensures var s := w.history[from].state;
      var tr := Reconcile(s, x, w.retry);
      && (Valid(AfterReferences(s, tr)) <==> Admissible(AfterReferences(s, tr)))
      && (Valid(AfterIntent(s, tr)) <==> Admissible(AfterIntent(s, tr)))
      && (Valid(AfterFinal(s, tr)) <==> Admissible(AfterFinal(s, tr)))
  {
    hide Reconcile, Valid, Good, Succeeds;
    ReachableInv(w);
    var s := w.history[from].state;
    var tr := Reconcile(s, x, w.retry);
    ReconcileAdvances(s, x, w.retry);
    GoodBoundary(AfterReferences(s, tr));
    GoodBoundary(AfterIntent(s, tr));
    GoodBoundary(AfterFinal(s, tr));
  }

  /** A server that validates never stores an orphan, so orphan mitigation never happens there. */
  lemma OrphansAreNeverStored(w: World, i: nat)
    requires Reachable(w) && w.validates && i < |w.history|
    ensures !w.history[i].state.orphan
  {
    ReachableInv(w);
  }

  /** Replies to Provision that start orphan mitigation. */
  predicate StartsMitigation(x: Inputs) {
    match x.provision
    case ProvisionTimeout => true
    case ProvisionHttpError(code) => 201 <= code <= 299 || code == 408 || 500 <= code <= 599
    case _ => false
  }

  lemma ProvisionMitigates(tr: Trace, o: Instance, x: Inputs, retry: Time)
    requires x.properties.Some? && tr.final.None? && !o.orphan
    ensures var r := SendProvision(tr, o, x, retry).final;
      if StartsMitigation(x) then r.Some? && r.value.orphan else r.Some? ==> !r.value.orphan
  {
    hide SetCond, Expired;
    match x.provision
    case ProvisionDone =>
    case ProvisionAccepted(_) =>
    case ProvisionHttpError(_) =>
    case ProvisionTimeout =>
    case ProvisionError =>
  }

  /** Exactly these replies make a pass submit an orphan, which a validating server refuses. */
  lemma OrphansAreSubmitted(w: World, from: nat, x: Inputs)
    requires Reachable(w) && from < |w.history| && GoodInputs(x)
    requires Reconcile(w.history[from].state, x, w.retry).call.CallProvision?
    ensures var s := w.history[from].state;
      var tr := Reconcile(s, x, w.retry);
      && (AfterFinal(s, tr).orphan <==> StartsMitigation(x))
      && (StartsMitigation(x) ==> tr.final.Some? && !Valid(AfterFinal(s, tr)))
  {
    hide Reconcile, SendProvision, SendDeprovision, PollBroker, Valid, StartsMitigation, BrokerInv, Timely, Later, Follows;
    ReachableInv(w);
    var s := w.history[from].state;
    var tr := Reconcile(s, x, w.retry);
    ReconcileShape(s, x, w.retry);
    ReconcileAdvances(s, x, w.retry);
    ProvisionMitigates(Before(tr), ProvisionObject(AfterIntent(s, tr), x), x, w.retry);
    GoodBoundary(AfterFinal(s, tr));
  }

  /** Such a pass happens on a validating server: a provision that is retried, and then times out. */
  lemma OrphanIsRefused(p: Properties, cls: Name, plan: Name) returns (w: World, x: Inputs)
    requires WellFormed(p)
    ensures Reachable(w) && w.validates && GoodInputs(x) && Legal(w, Pass(|w.history| - 1, x, Commits(false, false, false), w.broker.held))
    ensures var s := Stored(w);
      var tr := Reconcile(s, x, w.retry);
      tr.final.Some? && AfterFinal(s, tr).orphan && !Valid(AfterFinal(s, tr))
  {
    var e1 := Pass(0, ExampleInputs(p, cls, plan, ProvisionError), Commits(true, true, true), true);
    w := Next(EXAMPLE_START, e1);
    x := ExampleInputs(p, cls, plan, ProvisionTimeout).(okFinal := false);
    FirstPass(p, cls, plan, ProvisionError);
    assert Reachable(w) by { RunsFrom(EXAMPLE_START, e1, [], w); }
    hide Next;
    OrphansAreSubmitted(w, 3, x);
  }

  /** A validating server stores no answer to Provision that starts mitigation. */
  lemma StoredProvisionReply(w: World, from: nat, x: Inputs, c: Commits, held: bool)
    requires Reachable(w) && w.validates && Legal(w, Pass(from, x, c, held)) && c.final
    requires Reconcile(w.history[from].state, x, w.retry).call.CallProvision?
    ensures !StartsMitigation(x)
  {
    hide Reconcile, StartsMitigation, Valid;
    OrphansAreSubmitted(w, from, x);
  }

  lemma LatePollMitigates(s: Instance, x: Inputs)
    requires !Deleting(s) && !x.poll.PollSucceeded? && !x.poll.PollFailed?
    ensures var r := PollBroker(s, x, true).final;
      r.Some? && r.value.orphan
  {
    hide SetCond;
  }

  /** There, a poll that ends a provision past its deadline reported an end: giving up is refused. */
  lemma StoredLatePoll(w: World, from: nat, x: Inputs, c: Commits, held: bool)
    requires Reachable(w) && w.validates && Legal(w, Pass(from, x, c, held)) && c.final
    requires var s := w.history[from].state;
      && Reconcile(s, x, w.retry).call == CallPoll && PhaseOf(s) == AsyncProvisioning
      && s.start.Some? && Expired(s.start.value, w.retry, x.t1)
    ensures x.poll.PollSucceeded? || x.poll.PollFailed?
  {
    hide Reconcile, SendProvision, SendDeprovision, PollBroker, Valid, BrokerInv, Timely, Later, Follows;
    ReachableInv(w);
    var s := w.history[from].state;
    ReconcileShape(s, x, w.retry);
    ReconcileAdvances(s, x, w.retry);
    GoodBoundary(AfterFinal(s, Reconcile(s, x, w.retry)));
    if !x.poll.PollSucceeded? && !x.poll.PollFailed? {
      LatePollMitigates(s, x);
    }
  }

  // ---------- A deletion that can never finish ----------

  /** Provisioned, marked for deletion, and already reconciled at this generation. */
  predicate Overtaken(s: Instance) {
    s.deleted && s.finalizer && s.operation == NoOperation && s.reconciled == s.generation && !IsFailed(s)
  }

  ghost predicate Stuck(w: World) {
    Inv(w) && w.validates && Overtaken(Stored(w))
  }

  /** A provisioned instance marked for deletion can record its removal exactly if its generation is ahead. */
  lemma RemovalIsAdmissible(s: Instance, t: Time)
    requires Good(s) && s.deleted && PhaseOf(s) in {Ready, Unready}
    ensures Valid(RecordStart(s, Deprovision, t)) <==> s.reconciled < s.generation
    ensures s.reconciled < s.generation <==> !Overtaken(s)
  {
  }

  /** From an overtaken version a pass can only report, since its intent is refused. */
  lemma OvertakenPass(s: Instance, x: Inputs, retry: Time)
    requires Good(s) && Overtaken(s)
    ensures var tr := Reconcile(s, x, retry);
      && tr.references.None?
      && (tr.intent.Some? ==> !Valid(AfterIntent(s, tr)))
      && (tr.intent.None? && tr.final.Some? ==> AfterFinal(s, tr) == SetReady(s, ConditionFalse, x.t0))
  {
    hide SendDeprovision;
  }

  lemma StuckStep(w: World, e: Event)
    requires Stuck(w) && Legal(w, e)
    ensures Stuck(Next(w, e))
  {
    StepKeepsInv(w, e);
    if e.Pass? && e.from + 1 == |w.history| {
      OvertakenPass(Stored(w), e.inputs, w.retry);
      WritesAreOrdered(Stored(w), e.inputs, w.retry);
    }
  }

  /** Under validation such an instance is never deprovisioned and never released, however long the run. */
  lemma {:induction false} StuckForever(w: World, es: seq<Event>, w': World)
    requires Stuck(w) && Runs(w, es, w')
    ensures Stuck(w') && Stored(w').finalizer && !w'.broker.deprovisionSent
    decreases |es|
  {
    if es != [] {
      StuckStep(w, es[0]);
      StuckForever(Next(w, es[0]), es[1..], w');
    }
  }

  lemma PolledSuccess(s: Instance, x: Inputs, retry: Time)
    requires Good(s) && PhaseOf(s) == AsyncProvisioning && x.lookup.Found? && x.poll.PollSucceeded?
    ensures var tr := Reconcile(s, x, retry);
      && tr.references.None? && tr.intent.None? && tr.final.Some?
      && AfterFinal(s, tr) == SetReady(ClearOperation(s.(external := s.inProgress)), ConditionTrue, x.t1)
  {
  }

  /** It is what deletion during an asynchronous provision leads to, once the provision succeeds. */
  lemma DeletionDuringProvisionSticks(w: World, x: Inputs, held: bool)
    requires Reachable(w) && w.validates && PhaseOf(Stored(w)) == AsyncProvisioning && Stored(w).deleted
    requires x.lookup.Found? && x.poll.PollSucceeded?
    requires Legal(w, Pass(|w.history| - 1, x, Commits(false, false, true), held))
    ensures Stuck(Next(w, Pass(|w.history| - 1, x, Commits(false, false, true), held)))
  {
    hide Reconcile, LegalPass;
    ReachableInv(w);
    StepKeepsInv(w, Pass(|w.history| - 1, x, Commits(false, false, true), held));
    PolledSuccess(Stored(w), x, w.retry);
  }

  lemma PolledSuccessIsLegal(w: World, x: Inputs)
    requires w.history != [] && !w.gone && GoodInputs(x) && w.now <= x.t0 && x.okFinal && w.broker.held
    requires Good(Stored(w)) && PhaseOf(Stored(w)) == AsyncProvisioning && x.lookup.Found? && x.poll.PollSucceeded?
    requires Reconcile(Stored(w), x, w.retry).call == CallPoll
    ensures Legal(w, Pass(|w.history| - 1, x, Commits(false, false, true), true))
  {
    hide Reconcile, Valid, SetCond;
    var s := Stored(w);
    PolledSuccess(s, x, w.retry);
    ReconcileAdvances(s, x, w.retry);
    GoodBoundary(AfterFinal(s, Reconcile(s, x, w.retry)));
  }

  lemma StuckIsReachable(p: Properties, cls: Name, plan: Name)
    requires WellFormed(p)
    ensures exists w :: Reachable(w) && Stuck(w)
  {
    var x := ExampleInputs(p, cls, plan, ProvisionAccepted(None));
    var e1 := Pass(0, x, Commits(true, true, true), true);
    var w1 := Next(EXAMPLE_START, e1);
    var w2 := Next(w1, UserDelete(1));
    var e3 := Pass(4, x, Commits(false, false, true), true);
    var w3 := Next(w2, e3);
    FirstPass(p, cls, plan, ProvisionAccepted(None));
    assert Reconcile(Stored(w2), x, w2.retry).call == CallPoll;
    hide Reconcile;
    PolledSuccessIsLegal(w2, x);
    RunsFrom(w1, UserDelete(1), [], w2);
    RunsFrom(EXAMPLE_START, e1, [UserDelete(1)], w2);
    hide Next, Legal;
    ThreeSteps(e1, UserDelete(1), e3, w1, w2, w3);
    assert Reachable(w2);
    DeletionDuringProvisionSticks(w2, x, true);
  }
}
