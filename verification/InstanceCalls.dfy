/**
  How the writes of one pass relate to its broker call: which versions allow a call, and which
  replies lead to which versions.
 */
module InstanceCalls {
  import opened Common
  import opened Instances
  import opened InstanceSteps

  /** The broker said yes to a provision request, at once or for later. */
  predicate Acknowledged(x: Inputs) {
    x.provision.ProvisionDone? || x.provision.ProvisionAccepted?
  }

  /** The broker confirmed that a removal is complete. */
  predicate ConfirmsRemoval(s: Instance, call: Call, x: Inputs) {
    match call
    case CallDeprovision => x.deprovision.DeprovisionDone?
    case CallPoll => Deleting(s) && (x.poll.PollSucceeded? || x.poll.PollGone?)
    case _ => false
  }

  /** The reply only started or continued an accepted operation. */
  predicate Accepts(call: Call, x: Inputs) {
    match call
    case CallProvision(_) => x.provision.ProvisionAccepted?
    case CallDeprovision => x.deprovision.DeprovisionAccepted?
    case _ => false
  }

  /** A later write, or a call, happens only once the earlier writes were reported as done. */
  lemma WritesAreOrdered(s: Instance, x: Inputs, retry: Time)
    ensures var tr := Reconcile(s, x, retry);
      && (tr.references.Some? && (tr.intent.Some? || tr.call != NoCall || tr.final.Some?) ==> x.okReferences)
      && (tr.intent.Some? && (tr.call != NoCall || tr.final.Some?) ==> x.okIntent)
      && (tr.references.Some? ==> !s.async && !s.deleted && !s.orphan)
  {
  }

  /** The early writes: references change nothing else, and an intent starts an operation. */
  lemma EarlyWrites(s: Instance, x: Inputs, retry: Time)
    requires Good(s) && GoodInputs(x)
    ensures var tr := Reconcile(s, x, retry);
      var r, b := AfterReferences(s, tr), AfterIntent(s, tr);
      && r == s.(classRef := r.classRef, planRef := r.planRef)
      && b.external == s.external
      && (tr.intent.Some? ==> PhaseOf(b) in {Provisioning, Deprovisioning})
  {
    hide SendProvision, SendDeprovision, PollBroker;
  }

  // ---------- The shape of a pass ----------

  /** The object whose fate the reply to a provision call decides. */
  function ProvisionObject(b: Instance, x: Inputs): Instance {
    b.(inProgress := x.properties)
  }

  /** The object whose fate the reply to a deprovision call decides. */
  function DeprovisionObject(b: Instance, x: Inputs): Instance {
    if b.orphan && b.start.None? then b.(start := Some(x.t0)) else b
  }

  /** What a pass did before its call. */
  function Before(tr: Trace): Trace {
    IDLE.(references := tr.references, intent := tr.intent)
  }

  /** Without a call, a pass at most reports a condition or releases an instance the broker need not hear of. */
  ghost predicate ShapeWithoutCall(b: Instance, n: Instance, x: Inputs) {
    || n == b
    || n == SetReady(b, ConditionFalse, x.t0)
    || (n == b.(finalizer := false) && b.deleted && b.finalizer && !b.async && !b.orphan &&
        (IsFailed(b) || b.reconciled == 0))
  }

  /** The version in force at the call, and the trace as the continuation of that version. */
  ghost predicate Shape(s: Instance, x: Inputs, retry: Time) {
    var tr := Reconcile(s, x, retry);
    var b := AfterIntent(s, tr);
    match tr.call
    case NoCall => ShapeWithoutCall(b, AfterFinal(s, tr), x)
    case CallProvision(p) =>
      && SendsProvision(b, ProvisionObject(b, x)) && x.properties == Some(p)
      && PhaseOf(s) in {New, Provisioning} && !IsFailed(s) && !s.deleted
      && tr == SendProvision(Before(tr), ProvisionObject(b, x), x, retry)
    case CallDeprovision =>
      && SendsDeprovision(b, DeprovisionObject(b, x)) && s.orphan == b.orphan && s.deleted == b.deleted
      && x.credentials.NoCredentials? && (s.deleted || s.orphan)
      && tr == SendDeprovision(Before(tr), s, DeprovisionObject(b, x), x, retry)
    case CallPoll =>
      b == s && s.async && s.start.Some? && tr == PollBroker(s, x, Expired(s.start.value, retry, x.t1))
  }

  lemma PollShape(s: Instance, x: Inputs, retry: Time)
    requires Good(s) && s.async
    ensures Shape(s, x, retry)
  {
    hide PollBroker;
  }

  lemma DeleteShape(s: Instance, x: Inputs, retry: Time)
    requires Good(s) && GoodInputs(x) && !s.async && (s.deleted || s.orphan)
    ensures Shape(s, x, retry)
  {
    hide SendDeprovision;
    if s.finalizer && !s.orphan && !IsFailed(s) && s.operation == NoOperation && s.reconciled > 0 {
      RecordStartMoves(s, s, Deprovision, x.t0);
    }
  }

  lemma ProvisionShape(s: Instance, x: Inputs, retry: Time)
    requires Good(s) && GoodInputs(x) && !s.async && !s.deleted && !s.orphan
    ensures Shape(s, x, retry)
  {
    hide SendProvision;
    if Provisionable(s) && x.properties.Some? {
      var o := if s.classRef.Some? then s
               else s.(classRef := x.resolvedClass, planRef := x.resolvedPlan);
      if o.classRef.Some? && o.planRef.Some? && o.operation == NoOperation {
        RecordStartMoves(o, ProvisionObject(o, x), Provision, x.t0);
      }
    }
  }

  lemma ReconcileShape(s: Instance, x: Inputs, retry: Time)
    requires Good(s) && GoodInputs(x)
    ensures Shape(s, x, retry)
  {
    if s.async {
      PollShape(s, x, retry);
    } else if s.deleted || s.orphan {
      DeleteShape(s, x, retry);
    } else {
      ProvisionShape(s, x, retry);
    }
  }

  // ---------- Calls follow intents, and replies decide ----------

  /** Write-ahead intent: the version in force when Deprovision is sent already says so. */
  lemma DeprovisionFollowsIntent(s: Instance, x: Inputs, retry: Time)
    requires Good(s) && GoodInputs(x)
    ensures var tr := Reconcile(s, x, retry);
      tr.call == CallDeprovision ==>
        && PhaseOf(AfterIntent(s, tr)) in {Orphaned, Deprovisioning}
        && x.credentials.NoCredentials? && (s.deleted || s.orphan)
  {
    hide Reconcile, SendDeprovision, SendProvision, PollBroker;
    ReconcileShape(s, x, retry);
  }

  /** Provision is sent only while provisioning, and never from a version that shows a failure. */
  lemma ProvisionFollowsIntent(s: Instance, x: Inputs, retry: Time)
    requires Good(s) && GoodInputs(x)
    ensures var tr := Reconcile(s, x, retry);
      tr.call.CallProvision? ==>
        && PhaseOf(AfterIntent(s, tr)) == Provisioning && PhaseOf(s) in {New, Provisioning}
        && !IsFailed(s) && !s.deleted
        && x.properties == Some(tr.call.properties)
  {
    hide Reconcile, SendDeprovision, SendProvision, PollBroker;
    ReconcileShape(s, x, retry);
  }

  /** What the replies to each kind of call do to readiness and to the retry window. */
  lemma ProvisionReplies(tr: Trace, b: Instance, x: Inputs, retry: Time)
    requires x.properties.Some? && tr.final.None? && SendsProvision(b, ProvisionObject(b, x))
    ensures var r := SendProvision(tr, ProvisionObject(b, x), x, retry).final;
      r.Some? ==>
        && (IsReady(r.value) ==> x.provision.ProvisionDone? && r.value.external == x.properties)
        && (r.value.external != b.external ==> IsReady(r.value) && PhaseOf(r.value) == Ready)
        && (r.value.operation != NoOperation && r.value.start.Some? && !x.provision.ProvisionAccepted? ==>
              !Expired(r.value.start.value, retry, x.t1))
  {
    assert !IsReady(b) && !IsFailed(b) && b.generation > 0 && b.finalizer;
    hide Good, WellFormedOption, SetCond, ShouldStartOrphanMitigation, Expired;
    match x.provision
    case ProvisionDone =>
    case ProvisionAccepted(_) =>
    case ProvisionHttpError(_) =>
    case ProvisionTimeout =>
    case ProvisionError =>
  }

  /** What a reply to Deprovision may make of the object `o` it is applied to. */
  ghost predicate DeprovisionOutcome(o: Instance, x: Inputs, retry: Time, n: Instance) {
    && !IsReady(n) && (n.external == o.external || n.external.None?)
    && (n.operation != NoOperation && !x.deprovision.DeprovisionAccepted? ==>
          n.start.Some? && !Expired(n.start.value, retry, x.t1))
  }

  lemma DeprovisionErrorReply(tr: Trace, s: Instance, o: Instance, x: Inputs, retry: Time)
    requires tr.final.None? && x.deprovision.DeprovisionError?
    ensures var r := SendDeprovision(tr, s, o, x, retry);
      r.final.Some? ==> DeprovisionOutcome(o, x, retry, r.final.value)
  {
    hide SetCond, Expired;
  }

  lemma DeprovisionHttpReply(tr: Trace, s: Instance, o: Instance, x: Inputs, retry: Time)
    requires tr.final.None? && x.deprovision.DeprovisionHttpError?
    ensures var r := SendDeprovision(tr, s, o, x, retry);
      r.final.Some? ==> DeprovisionOutcome(o, x, retry, r.final.value)
  {
    hide SetCond, Expired;
  }

  lemma DeprovisionGoodReply(tr: Trace, s: Instance, o: Instance, x: Inputs, retry: Time)
    requires tr.final.None? && (x.deprovision.DeprovisionDone? || x.deprovision.DeprovisionAccepted?)
    ensures var r := SendDeprovision(tr, s, o, x, retry);
      r.final.Some? ==> DeprovisionOutcome(o, x, retry, r.final.value)
  {
    hide SetCond, Expired;
  }

  lemma DeprovisionReplies(tr: Trace, s: Instance, b: Instance, x: Inputs, retry: Time, r: Trace)
    requires tr.final.None? && r == SendDeprovision(tr, s, DeprovisionObject(b, x), x, retry)
    ensures r.final.Some? ==> DeprovisionOutcome(b, x, retry, r.final.value)
  {
    var o := DeprovisionObject(b, x);
    match x.deprovision {
      case DeprovisionDone => DeprovisionGoodReply(tr, s, o, x, retry);
      case DeprovisionAccepted(_) => DeprovisionGoodReply(tr, s, o, x, retry);
      case DeprovisionHttpError(_) => DeprovisionHttpReply(tr, s, o, x, retry);
      case DeprovisionError => DeprovisionErrorReply(tr, s, o, x, retry);
    }
    hide SendDeprovision, SetCond;
  }

  lemma PollReplies(s: Instance, x: Inputs, late: bool, tr: Trace)
    requires s.async && s.start.Some? && !IsReady(s) && (Deleting(s) ==> s.inProgress.None?)
    requires tr == PollBroker(s, x, late)
    ensures late ==> tr.final.Some? && !tr.final.value.async && !tr.polling.KeepPolling?
    ensures tr.final.Some? && tr.final.value.operation != NoOperation && tr.final.value.start.Some? ==>
              tr.final.value.start == s.start && !late
    ensures tr.final.Some? && IsReady(tr.final.value) ==>
              x.poll.PollSucceeded? && !Deleting(s) && tr.final.value.external == s.inProgress
    ensures tr.final.Some? && tr.final.value.external.Some? && tr.final.value.external != s.external ==>
              IsReady(tr.final.value)
  {
    hide SetCond;
    match x.poll
    case PollInProgress(_) =>
    case PollSucceeded =>
    case PollFailed =>
    case PollInvalid =>
    case PollGone =>
    case PollError =>
  }

  /** The only ways to become ready, and what the external properties then are. */
  lemma BecomesReady(s: Instance, x: Inputs, retry: Time)
    requires Good(s) && GoodInputs(x)
    ensures var tr := Reconcile(s, x, retry);
      var b, n := AfterIntent(s, tr), AfterFinal(s, tr);
      PhaseOf(n) == Ready && PhaseOf(b) != Ready ==>
        || (tr.call.CallProvision? && x.provision.ProvisionDone? && n.external == Some(tr.call.properties))
        || (tr.call == CallPoll && x.poll.PollSucceeded? && PhaseOf(b) == AsyncProvisioning && n.external == b.inProgress)
  {
    hide Reconcile, SendDeprovision, SendProvision, PollBroker;
    ReconcileShape(s, x, retry);
    var tr := Reconcile(s, x, retry);
    if tr.call.CallProvision? {
      ProvisionReplies(Before(tr), AfterIntent(s, tr), x, retry);
    } else if tr.call.CallDeprovision? {
      DeprovisionReplies(Before(tr), s, AfterIntent(s, tr), x, retry, tr);
    } else if tr.call.CallPoll? {
      PollReplies(s, x, Expired(s.start.value, retry, x.t1), tr);
    }
  }

  /** External properties appear only with readiness. */
  lemma ExternalAppears(s: Instance, x: Inputs, retry: Time)
    requires Good(s) && GoodInputs(x)
    ensures var tr := Reconcile(s, x, retry);
      var b, n := AfterIntent(s, tr), AfterFinal(s, tr);
      n.external.Some? && n.external != b.external ==> PhaseOf(n) == Ready && PhaseOf(b) != Ready
  {
    hide Reconcile, SendDeprovision, SendProvision, PollBroker;
    ReconcileShape(s, x, retry);
    var tr := Reconcile(s, x, retry);
    if tr.call.CallProvision? {
      ProvisionReplies(Before(tr), AfterIntent(s, tr), x, retry);
    } else if tr.call.CallDeprovision? {
      DeprovisionReplies(Before(tr), s, AfterIntent(s, tr), x, retry, tr);
    } else if tr.call.CallPoll? {
      PollReplies(s, x, Expired(s.start.value, retry, x.t1), tr);
    }
    ReconcileAdvances(s, x, retry);
  }

  /** The replies that leave an asynchronous provision, call by call. */
  lemma ProvisionAccepts(tr: Trace, b: Instance, x: Inputs, retry: Time)
    requires x.properties.Some? && tr.final.None? && !b.async
    ensures var r := SendProvision(tr, ProvisionObject(b, x), x, retry).final;
      r.Some? && r.value.async ==> Acknowledged(x) && r.value.inProgress == x.properties
  {
    hide SetCond, ShouldStartOrphanMitigation, Expired;
    var r := SendProvision(tr, ProvisionObject(b, x), x, retry).final;
    if !x.provision.ProvisionAccepted? {
      ProvisionIsSync(tr, ProvisionObject(b, x), x, retry);
      hide SendProvision;
    }
  }

  lemma ProvisionIsSync(tr: Trace, o: Instance, x: Inputs, retry: Time)
    requires x.properties.Some? && tr.final.None? && !o.async && !x.provision.ProvisionAccepted?
    ensures var r := SendProvision(tr, o, x, retry).final;
      r.Some? ==> !r.value.async
  {
    hide SetCond, ShouldStartOrphanMitigation, Expired;
    match x.provision
    case ProvisionDone =>
    case ProvisionHttpError(_) =>
    case ProvisionTimeout =>
    case ProvisionError =>
  }

  lemma DeprovisionKeepsSides(tr: Trace, s: Instance, b: Instance, x: Inputs, retry: Time)
    requires tr.final.None? && SendsDeprovision(b, DeprovisionObject(b, x)) && !b.async
    ensures var r := SendDeprovision(tr, s, DeprovisionObject(b, x), x, retry).final;
      r.Some? && r.value.async ==> r.value.orphan == b.orphan && r.value.operation == b.operation
  {
    hide SendsDeprovision, SetCond, Expired;
    match x.deprovision
    case DeprovisionDone =>
    case DeprovisionAccepted(_) =>
    case DeprovisionHttpError(_) =>
    case DeprovisionError =>
  }

  lemma PollKeepsSides(s: Instance, x: Inputs, late: bool)
    ensures var r := PollBroker(s, x, late).final;
      r.Some? && r.value.async ==> r.value.inProgress == s.inProgress && r.value.operation == s.operation && r.value.orphan == s.orphan
  {
    hide SetCond, ShouldStartOrphanMitigation, Expired;
  }

  lemma BecomesAsyncProvisioning(s: Instance, x: Inputs, retry: Time)
    requires Good(s) && GoodInputs(x)
    ensures var tr := Reconcile(s, x, retry);
      var b, n := AfterIntent(s, tr), AfterFinal(s, tr);
      PhaseOf(n) == AsyncProvisioning ==>
        if PhaseOf(b) == AsyncProvisioning then n.inProgress == b.inProgress
        else tr.call.CallProvision? && Acknowledged(x) && n.inProgress == Some(tr.call.properties)
  {
    hide Reconcile, SendProvision, SendDeprovision, PollBroker;
    ReconcileShape(s, x, retry);
    var tr := Reconcile(s, x, retry);
    var b := AfterIntent(s, tr);
    if tr.call.CallProvision? {
      ProvisionAccepts(Before(tr), b, x, retry);
    } else if tr.call.CallDeprovision? {
      DeprovisionKeepsSides(Before(tr), s, b, x, retry);
    } else if tr.call.CallPoll? {
      PollKeepsSides(s, x, Expired(s.start.value, retry, x.t1));
    }
  }

  /** A recorded deprovision or mitigation moves on only by a call. */
  lemma RemovalNeedsCall(s: Instance, x: Inputs, retry: Time)
    requires Good(s) && GoodInputs(x)
    ensures var tr := Reconcile(s, x, retry);
      var b, n := AfterIntent(s, tr), AfterFinal(s, tr);
      PhaseOf(b) in {Deprovisioning, Orphaned} && PhaseOf(n) != PhaseOf(b) ==> tr.call == CallDeprovision
  {
    hide Reconcile, SendProvision, SendDeprovision, PollBroker, Later, Follows;
    ReconcileShape(s, x, retry);
    ReconcileAdvances(s, x, retry);
  }

  lemma DeprovisionReleases(tr: Trace, s: Instance, o: Instance, x: Inputs, retry: Time)
    requires tr.final.None? && o.finalizer
    ensures var r := SendDeprovision(tr, s, o, x, retry).final;
      r.Some? && !r.value.finalizer ==> x.deprovision.DeprovisionDone?
  {
    hide SetCond, Expired;
  }

  lemma PollReleases(s: Instance, x: Inputs, late: bool)
    requires s.finalizer
    ensures var r := PollBroker(s, x, late).final;
      r.Some? && !r.value.finalizer ==> ConfirmsRemoval(s, CallPoll, x)
  {
    hide SetCond;
  }

  /** A recorded deprovision ends with a release only on confirmation. */
  lemma ReleaseNeedsConfirmation(s: Instance, x: Inputs, retry: Time)
    requires Good(s) && GoodInputs(x)
    ensures var tr := Reconcile(s, x, retry);
      var b, n := AfterIntent(s, tr), AfterFinal(s, tr);
      PhaseOf(b) in {Deprovisioning, AsyncDeprovisioning} && PhaseOf(n) == Released ==> ConfirmsRemoval(s, tr.call, x)
  {
    hide Reconcile, SendProvision, SendDeprovision, PollBroker, Later, Follows, SetCond;
    ReconcileShape(s, x, retry);
    ReconcileAdvances(s, x, retry);
    var tr := Reconcile(s, x, retry);
    var b := AfterIntent(s, tr);
    if tr.call.CallDeprovision? && b.finalizer {
      DeprovisionReleases(Before(tr), s, DeprovisionObject(b, x), x, retry);
    } else if tr.call.CallPoll? && s.finalizer {
      PollReleases(s, x, Expired(s.start.value, retry, x.t1));
    }
  }

  /** A confirmed removal submits a version without external properties. */
  lemma RemovalClearsExternal(s: Instance, x: Inputs, retry: Time)
    requires Good(s) && GoodInputs(x)
    ensures var tr := Reconcile(s, x, retry);
      ConfirmsRemoval(s, tr.call, x) ==>
        && tr.final.Some? && tr.final.value.external.None? && tr.final.value.operation == NoOperation
        && !IsReady(tr.final.value)
  {
    hide Reconcile;
    ReconcileShape(s, x, retry);
  }

  /** Apart from acceptances, no reply keeps an operation going past its retry window. */
  lemma RepliesRespectDeadline(s: Instance, x: Inputs, retry: Time)
    requires Good(s) && GoodInputs(x)
    ensures var tr := Reconcile(s, x, retry);
      var n := AfterFinal(s, tr);
      && (tr.final.Some? && tr.call != NoCall && !Accepts(tr.call, x) && n.operation != NoOperation && n.start.Some? ==>
            !Expired(n.start.value, retry, x.t1))
      && (tr.call == CallPoll && s.start.Some? && Expired(s.start.value, retry, x.t1) ==>
            !tr.polling.KeepPolling? && (tr.final.Some? ==> !n.async) && tr.final.Some?)
  {
    hide Reconcile, SendDeprovision, SendProvision, PollBroker;
    ReconcileShape(s, x, retry);
    var tr := Reconcile(s, x, retry);
    if tr.call.CallProvision? {
      ProvisionReplies(Before(tr), AfterIntent(s, tr), x, retry);
    } else if tr.call.CallDeprovision? {
      DeprovisionReplies(Before(tr), s, AfterIntent(s, tr), x, retry, tr);
    } else if tr.call.CallPoll? {
      PollReplies(s, x, Expired(s.start.value, retry, x.t1), tr);
    }
  }

  /** What a last write over `b` says about the call it follows. */
  ghost predicate Accounts(s: Instance, call: Call, x: Inputs, b: Instance, n: Instance) {
    var p, q := PhaseOf(b), PhaseOf(n);
    && (q == Ready && p != Ready ==>
          || (call.CallProvision? && x.provision.ProvisionDone? && n.external == Some(call.properties))
          || (call == CallPoll && x.poll.PollSucceeded? && p == AsyncProvisioning && n.external == b.inProgress))
    && (q == AsyncProvisioning ==>
          if p == AsyncProvisioning then n.inProgress == b.inProgress
          else call.CallProvision? && Acknowledged(x) && n.inProgress == Some(call.properties))
    && (p in {Deprovisioning, Orphaned} && q != p ==> call == CallDeprovision)
    && (p in {Deprovisioning, AsyncDeprovisioning} && q == Released ==> ConfirmsRemoval(s, call, x))
    && (n.external.Some? && n.external != b.external ==> q == Ready && p != Ready)
  }

  lemma FinalAccounts(s: Instance, x: Inputs, retry: Time)
    requires Good(s) && GoodInputs(x)
    ensures var tr := Reconcile(s, x, retry);
      Accounts(s, tr.call, x, AfterIntent(s, tr), AfterFinal(s, tr))
  {
    hide Reconcile, Good, PhaseOf;
    BecomesReady(s, x, retry);
    BecomesAsyncProvisioning(s, x, retry);
    RemovalNeedsCall(s, x, retry);
    ReleaseNeedsConfirmation(s, x, retry);
    ExternalAppears(s, x, retry);
  }
}
