/**
  What every pass over an instance leads to: which call it makes, and what each reply leaves behind.
  The other results about instances say what a state goes back to; these say what must follow.
 */
module InstanceOutcomes {
  import opened Common
  import opened Instances
  import opened InstanceSteps
  import opened InstanceCalls
  import opened InstanceRuns
  import opened InstanceTheorems
  import InstanceValidation

  // ---------- What may become of an operation ----------

  /** The operation is over and the generation counts as reconciled. */
  ghost predicate Ended(n: Instance) {
    && n.operation == NoOperation && n.start.None? && !n.async && !n.orphan
    && n.lastOperation.None? && n.inProgress.None? && n.reconciled == n.generation
  }

  /** The operation goes on as it was. */
  ghost predicate GoesOn(b: Instance, n: Instance) {
    && n.operation == b.operation && n.async == b.async && n.orphan == b.orphan
    && n.lastOperation == b.lastOperation && n.reconciled == b.reconciled
  }

  /** The broker accepted the operation; a key it gave is remembered. */
  ghost predicate Awaited(b: Instance, key: Option<Name>, n: Instance) {
    && n.operation == b.operation && n.async && n.orphan == b.orphan && n.reconciled == b.reconciled
    && n.lastOperation == if key.Some? && key.value != "" then key else b.lastOperation
  }

  /** Orphan mitigation begins, under the same operation and without a window yet. */
  ghost predicate Orphans(b: Instance, n: Instance) {
    && n.operation == b.operation && n.orphan && !n.async && n.start.None? && n.inProgress.None?
    && n.lastOperation == b.lastOperation && n.reconciled == b.reconciled
  }

  /** No reply changes the spec or the server's metadata. */
  ghost predicate SameSpec(b: Instance, n: Instance) {
    n.generation == b.generation && n.deleted == b.deleted && n.classRef == b.classRef && n.planRef == b.planRef
  }

  ghost predicate Sets(b: Instance, status: ConditionStatus, t: Time, n: Instance) {
    n.ready == SetCond(b.ready, status, t)
  }

  ghost predicate Fails(b: Instance, t: Time, n: Instance) {
    n.failed == SetCond(b.failed, ConditionTrue, t)
  }

  /** The pass wrote a last status and succeeded if that was reported as done. */
  predicate Reports(tr: Trace, ok: bool, polling: Polling) {
    tr.final.Some? && tr.failed == !ok && tr.polling == if ok then polling else LeavePolling
  }

  /** The pass wrote a last status and asks to be tried again. */
  predicate Retries(tr: Trace) {
    tr.final.Some? && tr.failed && tr.polling == LeavePolling
  }

  predicate Mitigates(code: int) {
    201 <= code <= 299 || code == 408 || 500 <= code <= 599
  }

  predicate Late(start: Option<Time>, retry: Time, t: Time) {
    start.Some? && start.value + retry <= t
  }

  // ---------- Replies to Provision ----------

  /** What each reply to Provision makes of version `b`. */
  ghost predicate ProvisionOutcome(b: Instance, x: Inputs, retry: Time, tr: Trace, n: Instance) {
    && SameSpec(b, n) && n.finalizer == b.finalizer
    && Sets(b, if x.provision.ProvisionDone? then ConditionTrue else ConditionFalse, x.t1, n)
    && n.external == (if x.provision.ProvisionDone? then x.properties else b.external)
    && match x.provision
       case ProvisionDone => Ended(n) && n.failed == b.failed && Reports(tr, x.okFinal, LeavePolling)
       case ProvisionAccepted(key) =>
         && Awaited(b, key, n) && n.start == b.start && n.inProgress == x.properties && n.failed == b.failed
         && Reports(tr, x.okFinal, KeepPolling)
       case ProvisionHttpError(code) =>
         && Fails(b, x.t1, n)
         && (if Mitigates(code) then Orphans(b, n) && Retries(tr) else Ended(n) && Reports(tr, x.okFinal, LeavePolling))
       case ProvisionTimeout => Fails(b, x.t1, n) && Orphans(b, n) && Retries(tr)
       case ProvisionError =>
         if Late(b.start, retry, x.t1) then Fails(b, x.t1, n) && Ended(n) && Reports(tr, x.okFinal, LeavePolling)
         else GoesOn(b, n) && n.start == b.start && n.inProgress == x.properties && n.failed == b.failed && Retries(tr)
  }

  /** The version that results from a call made while `b` was in force. */
  function Result(b: Instance, tr: Trace): Instance {
    if tr.final.Some? then PrepareForStatusUpdate(tr.final.value, b) else b
  }

  ghost predicate AsksProvision(b: Instance, x: Inputs, tr0: Trace) {
    && x.properties.Some? && !b.async && !b.orphan && b.start.Some?
    && tr0.final.None? && !tr0.failed && tr0.polling == LeavePolling
  }

  lemma ProvisionDoneOutcome(tr0: Trace, b: Instance, x: Inputs, retry: Time)
    requires AsksProvision(b, x, tr0) && (x.provision.ProvisionDone? || x.provision.ProvisionAccepted?)
    ensures var tr := SendProvision(tr0, ProvisionObject(b, x), x, retry);
      ProvisionOutcome(b, x, retry, tr, Result(b, tr))
  {
    hide SetCond;
  }

  lemma ProvisionRefusedOutcome(tr0: Trace, b: Instance, x: Inputs, retry: Time)
    requires AsksProvision(b, x, tr0) && (x.provision.ProvisionHttpError? || x.provision.ProvisionTimeout?)
    ensures var tr := SendProvision(tr0, ProvisionObject(b, x), x, retry);
      ProvisionOutcome(b, x, retry, tr, Result(b, tr))
  {
    hide SetCond;
  }

  lemma ProvisionErrorOutcome(tr0: Trace, b: Instance, x: Inputs, retry: Time)
    requires AsksProvision(b, x, tr0) && x.provision.ProvisionError?
    ensures var tr := SendProvision(tr0, ProvisionObject(b, x), x, retry);
      ProvisionOutcome(b, x, retry, tr, Result(b, tr))
  {
    hide SetCond;
  }

  /** In every reachable state, each reply to Provision leads exactly there. */
  lemma ProvisionLeadsTo(w: World, from: nat, x: Inputs)
    requires Reachable(w) && from < |w.history| && GoodInputs(x)
    requires Reconcile(w.history[from].state, x, w.retry).call.CallProvision?
    ensures var s := w.history[from].state;
      var tr := Reconcile(s, x, w.retry);
      ProvisionOutcome(AfterIntent(s, tr), x, w.retry, tr, AfterFinal(s, tr)) && x.properties == Some(tr.call.properties)
  {
    hide Reconcile, SendProvision, SendDeprovision, PollBroker, BrokerInv, Timely, Later, Follows, ProvisionOutcome, Ordered;
    ReachableInv(w);
    GoodVersion(w.history, from);
    var s := w.history[from].state;
    var tr := Reconcile(s, x, w.retry);
    var b := AfterIntent(s, tr);
    ReconcileShape(s, x, w.retry);
    match x.provision
    case ProvisionDone => ProvisionDoneOutcome(Before(tr), b, x, w.retry);
    case ProvisionAccepted(_) => ProvisionDoneOutcome(Before(tr), b, x, w.retry);
    case ProvisionHttpError(_) => ProvisionRefusedOutcome(Before(tr), b, x, w.retry);
    case ProvisionTimeout => ProvisionRefusedOutcome(Before(tr), b, x, w.retry);
    case ProvisionError => ProvisionErrorOutcome(Before(tr), b, x, w.retry);
  }

  /** A provision request makes the instance ready if and only if the broker says it is done; then nothing is left to do. */
  lemma ReadyIffDone(w: World, from: nat, x: Inputs)
    requires Reachable(w) && from < |w.history| && GoodInputs(x)
    requires Reconcile(w.history[from].state, x, w.retry).call.CallProvision?
    ensures var s := w.history[from].state;
      var tr := Reconcile(s, x, w.retry);
      var n := AfterFinal(s, tr);
      && (IsReady(n) <==> x.provision.ProvisionDone?)
      && (IsReady(n) ==>
            && PhaseOf(n) == Ready && n.external == Some(tr.call.properties)
            && n.operation == NoOperation && n.reconciled == n.generation && !IsFailed(n) && (x.okFinal ==> !tr.failed))
  {
    hide Reconcile, SendProvision, SendDeprovision, PollBroker, BrokerInv, Timely, Later, Follows, Ordered;
    var s := w.history[from].state;
    ProvisionLeadsTo(w, from, x);
    ReachableInv(w);
    GoodVersion(w.history, from);
    ReconcileAdvances(s, x, w.retry);
  }

  /** And the phase each other reply leads to. */
  lemma ProvisionPhase(w: World, from: nat, x: Inputs)
    requires Reachable(w) && from < |w.history| && GoodInputs(x)
    requires Reconcile(w.history[from].state, x, w.retry).call.CallProvision?
    ensures var s := w.history[from].state;
      var tr := Reconcile(s, x, w.retry);
      PhaseOf(AfterFinal(s, tr)) ==
        match x.provision
        case ProvisionDone => Ready
        case ProvisionAccepted(_) => AsyncProvisioning
        case ProvisionHttpError(code) => if Mitigates(code) then Orphaned else Failed
        case ProvisionTimeout => Orphaned
        case ProvisionError => if Late(AfterIntent(s, tr).start, w.retry, x.t1) then Failed else Provisioning
  {
    hide Reconcile, SendProvision, SendDeprovision, PollBroker, BrokerInv, Timely, Later, Follows, Ordered;
    var s := w.history[from].state;
    ProvisionLeadsTo(w, from, x);
    ReadyIffDone(w, from, x);
    ReachableInv(w);
    GoodVersion(w.history, from);
    ReconcileAdvances(s, x, w.retry);
    ProvisionFollowsIntent(s, x, w.retry);
  }

  // ---------- Replies to Deprovision ----------

  /** The start of the window: mitigation opens it with its first call. */
  function WindowStart(b: Instance, t: Time): Option<Time> {
    if b.orphan && b.start.None? then Some(t) else b.start
  }

  ghost predicate DeprovisionOutcomeOf(b: Instance, x: Inputs, retry: Time, tr: Trace, n: Instance) {
    var start := WindowStart(b, x.t0);
    && SameSpec(b, n)
    && match x.deprovision
       case DeprovisionDone =>
         && Ended(n) && n.external.None? && Sets(b, ConditionFalse, x.t1, n) && n.failed == b.failed
         && n.finalizer == (b.finalizer && !b.deleted) && Reports(tr, x.okFinal, LeavePolling)
       case DeprovisionAccepted(key) =>
         && Awaited(b, key, n) && n.start == start && n.inProgress == b.inProgress && n.external == b.external
         && Sets(b, ConditionFalse, x.t1, n) && n.failed == b.failed && n.finalizer == b.finalizer
         && Reports(tr, x.okFinal, KeepPolling)
       case DeprovisionHttpError(_) => GivesUp(b, x, tr, n)
       case DeprovisionError =>
         if Late(start, retry, x.t1) then GivesUp(b, x, tr, n)
         else
           && GoesOn(b, n) && n.start == start && n.inProgress == b.inProgress && n.external == b.external
           && Sets(b, ConditionUnknown, x.t1, n) && n.failed == b.failed && n.finalizer == b.finalizer && Retries(tr)
  }

  /** A removal that failed for good: nothing is confirmed, and an orphan keeps the reason of its failure. */
  ghost predicate GivesUp(b: Instance, x: Inputs, tr: Trace, n: Instance) {
    && Ended(n) && n.external == b.external && n.finalizer == b.finalizer && Sets(b, ConditionUnknown, x.t1, n)
    && (if b.orphan then n.failed == b.failed else Fails(b, x.t1, n)) && Reports(tr, x.okFinal, LeavePolling)
  }

  ghost predicate AsksDeprovision(s: Instance, b: Instance, tr0: Trace) {
    && s.orphan == b.orphan && s.deleted == b.deleted && !b.async && (b.orphan || b.start.Some?)
    && tr0.final.None? && !tr0.failed && tr0.polling == LeavePolling
  }

  lemma DeprovisionDoneOutcome(tr0: Trace, s: Instance, b: Instance, x: Inputs, retry: Time)
    requires AsksDeprovision(s, b, tr0) && (x.deprovision.DeprovisionDone? || x.deprovision.DeprovisionAccepted?)
    ensures var tr := SendDeprovision(tr0, s, DeprovisionObject(b, x), x, retry);
      DeprovisionOutcomeOf(b, x, retry, tr, Result(b, tr))
  {
    hide SetCond;
  }

  lemma DeprovisionFailedOutcome(tr0: Trace, s: Instance, b: Instance, x: Inputs, retry: Time)
    requires AsksDeprovision(s, b, tr0) && (x.deprovision.DeprovisionHttpError? || x.deprovision.DeprovisionError?)
    ensures var tr := SendDeprovision(tr0, s, DeprovisionObject(b, x), x, retry);
      DeprovisionOutcomeOf(b, x, retry, tr, Result(b, tr))
  {
    hide SetCond;
  }

  /** In every reachable state, each reply to Deprovision leads exactly there. */
  lemma DeprovisionLeadsTo(w: World, from: nat, x: Inputs)
    requires Reachable(w) && from < |w.history| && GoodInputs(x)
    requires Reconcile(w.history[from].state, x, w.retry).call == CallDeprovision
    ensures var s := w.history[from].state;
      var tr := Reconcile(s, x, w.retry);
      DeprovisionOutcomeOf(AfterIntent(s, tr), x, w.retry, tr, AfterFinal(s, tr))
  {
    hide Reconcile, SendProvision, SendDeprovision, PollBroker, BrokerInv, Timely, Later, Follows, DeprovisionOutcomeOf, Ordered;
    ReachableInv(w);
    GoodVersion(w.history, from);
    var s := w.history[from].state;
    var tr := Reconcile(s, x, w.retry);
    var b := AfterIntent(s, tr);
    ReconcileShape(s, x, w.retry);
    match x.deprovision
    case DeprovisionDone => DeprovisionDoneOutcome(Before(tr), s, b, x, w.retry);
    case DeprovisionAccepted(_) => DeprovisionDoneOutcome(Before(tr), s, b, x, w.retry);
    case DeprovisionHttpError(_) => DeprovisionFailedOutcome(Before(tr), s, b, x, w.retry);
    case DeprovisionError => DeprovisionFailedOutcome(Before(tr), s, b, x, w.retry);
  }

  // ---------- Replies to a poll ----------

  /** The reply says neither that the operation ended nor, during a removal, that nothing is left of the instance. */
  predicate Inconclusive(s: Instance, poll: PollReply) {
    && !poll.PollSucceeded? && !poll.PollFailed?
    && !(poll.PollGone? && (s.operation == Deprovision || s.orphan))
  }

  ghost predicate PollOutcome(s: Instance, x: Inputs, retry: Time, tr: Trace, n: Instance) {
    var removes := s.operation == Deprovision || s.orphan;
    && SameSpec(s, n)
    && if Inconclusive(s, x.poll) then
         if Late(s.start, retry, x.t1) then PollGivesUp(s, removes, x, tr, n) else PollGoesOn(s, x, tr, n)
       else
         && Ended(n) && Reports(tr, x.okFinal, FinishPolling)
         && match x.poll
            case PollFailed =>
              && Sets(s, if removes then ConditionUnknown else ConditionFalse, x.t1, n)
              && (if s.orphan then n.failed == s.failed else Fails(s, x.t1, n))
              && n.external == s.external && n.finalizer == s.finalizer
            case _ =>
              && n.failed == s.failed && Sets(s, if removes then ConditionFalse else ConditionTrue, x.t1, n)
              && n.external == (if removes then None else s.inProgress)
              && n.finalizer == (s.finalizer && (!removes || s.orphan))
  }

  /** Within its window an operation that is not reported as ended goes on, and so does its polling. */
  ghost predicate PollGoesOn(s: Instance, x: Inputs, tr: Trace, n: Instance) {
    && GoesOn(s, n) && n.start == s.start && n.inProgress == s.inProgress && n.external == s.external
    && n.failed == s.failed && n.finalizer == s.finalizer
    && (if x.poll.PollInProgress? && x.poll.described then Sets(s, ConditionFalse, x.t1, n) else n.ready == s.ready)
    && tr.polling != FinishPolling && (tr.polling == KeepPolling <==> !tr.failed)
    && (tr.failed <==> x.poll.PollInvalid? || (tr.final.Some? && !x.okFinal))
    && (tr.final.Some? <==> x.poll.PollInProgress? && x.poll.described)
  }

  /** Past its window a removal ends as failed and a provision becomes an orphan; polling stops. */
  ghost predicate PollGivesUp(s: Instance, removes: bool, x: Inputs, tr: Trace, n: Instance) {
    && (if removes then Ended(n) else Orphans(s, n))
    && (if s.orphan then n.failed == s.failed else Fails(s, x.t1, n))
    && n.external == s.external && n.finalizer == s.finalizer && Reports(tr, x.okFinal, FinishPolling)
  }

  lemma PollEndOutcome(s: Instance, x: Inputs, retry: Time)
    requires s.async && s.start.Some? && !Inconclusive(s, x.poll)
    requires s.operation == Deprovision || s.orphan ==> s.inProgress.None?
    ensures var tr := PollBroker(s, x, Expired(s.start.value, retry, x.t1));
      PollOutcome(s, x, retry, tr, Result(s, tr))
  {
    hide SetCond;
  }

  lemma PollEarlyOutcome(s: Instance, x: Inputs, retry: Time)
    requires s.async && s.start.Some? && Inconclusive(s, x.poll) && x.t1 < s.start.value + retry
    ensures var tr := PollBroker(s, x, Expired(s.start.value, retry, x.t1));
      PollOutcome(s, x, retry, tr, Result(s, tr))
  {
    hide SetCond;
  }

  lemma PollLateOutcome(s: Instance, x: Inputs, retry: Time)
    requires s.async && s.start.Some? && Inconclusive(s, x.poll) && s.start.value + retry <= x.t1
    ensures var tr := PollBroker(s, x, Expired(s.start.value, retry, x.t1));
      PollOutcome(s, x, retry, tr, Result(s, tr))
  {
    hide SetCond;
  }

  /** In every reachable state, each reply to a poll leads exactly there. */
  lemma PollLeadsTo(w: World, from: nat, x: Inputs)
    requires Reachable(w) && from < |w.history| && GoodInputs(x)
    requires Reconcile(w.history[from].state, x, w.retry).call == CallPoll
    ensures var s := w.history[from].state;
      var tr := Reconcile(s, x, w.retry);
      PollOutcome(s, x, w.retry, tr, AfterFinal(s, tr)) && s.start.Some?
  {
    hide Reconcile, SendProvision, SendDeprovision, PollBroker, BrokerInv, Timely, Later, Follows, PollOutcome, Ordered;
    ReachableInv(w);
    GoodVersion(w.history, from);
    var s := w.history[from].state;
    ReconcileShape(s, x, w.retry);
    if !Inconclusive(s, x.poll) {
      PollEndOutcome(s, x, w.retry);
    } else if s.start.value + w.retry <= x.t1 {
      PollLateOutcome(s, x, w.retry);
    } else {
      PollEarlyOutcome(s, x, w.retry);
    }
  }

  /** An inconclusive poll ends the wait if and only if the window is over. */
  lemma GivenUpIffLate(w: World, from: nat, x: Inputs)
    requires Reachable(w) && from < |w.history| && GoodInputs(x)
    requires Reconcile(w.history[from].state, x, w.retry).call == CallPoll && Inconclusive(w.history[from].state, x.poll)
    ensures var s := w.history[from].state;
      var tr := Reconcile(s, x, w.retry);
      s.start.Some? && (!AfterFinal(s, tr).async <==> s.start.value + w.retry <= x.t1)
  {
    hide Reconcile, BrokerInv, Timely, Later, Follows, Ordered;
    ReachableInv(w);
    GoodVersion(w.history, from);
    ReconcileShape(w.history[from].state, x, w.retry);
    PollLeadsTo(w, from, x);
  }

  /** An error that is no answer ends a provision or a removal if and only if its window is over. */
  lemma EndedIffLate(w: World, from: nat, x: Inputs)
    requires Reachable(w) && from < |w.history| && GoodInputs(x)
    ensures var s := w.history[from].state;
      var tr := Reconcile(s, x, w.retry);
      var b, n := AfterIntent(s, tr), AfterFinal(s, tr);
      && (tr.call.CallProvision? && x.provision.ProvisionError? ==>
            b.start.Some? && (n.operation == NoOperation <==> b.start.value + w.retry <= x.t1))
      && (tr.call == CallDeprovision && x.deprovision.DeprovisionError? ==>
            var start := WindowStart(b, x.t0);
            start.Some? && (n.operation == NoOperation <==> start.value + w.retry <= x.t1))
  {
    hide Reconcile, SendProvision, SendDeprovision, PollBroker, BrokerInv, Timely, Later, Follows, Ordered, SetCond;
    ReachableInv(w);
    GoodVersion(w.history, from);
    var s := w.history[from].state;
    var call := Reconcile(s, x, w.retry).call;
    ReconcileShape(s, x, w.retry);
    if call.CallProvision? {
      ProvisionLeadsTo(w, from, x);
    } else if call == CallDeprovision {
      DeprovisionLeadsTo(w, from, x);
    }
  }

  // ---------- Which call a pass makes ----------

  /** The references are there, or can be resolved and stored. */
  predicate CanResolve(s: Instance, x: Inputs) {
    s.classRef.Some? || (x.resolvedClass.Some? && x.resolvedPlan.Some? && x.okReferences)
  }

  predicate Provisions(s: Instance, x: Inputs) {
    && !s.async && !s.deleted && !s.orphan && !IsFailed(s) && s.reconciled == 0
    && CanResolve(s, x) && x.lookup.Found? && x.namespaceFound && x.properties.Some?
    && (s.operation == NoOperation ==> x.okIntent)
  }

  /** Deletion is requested or an orphan is to be removed, and no credential is in the way. */
  predicate MayRemove(s: Instance, x: Inputs) {
    !s.async && (s.deleted || s.orphan) && s.finalizer && x.credentials.NoCredentials?
  }

  predicate Deprovisions(s: Instance, x: Inputs) {
    && MayRemove(s, x) && (s.orphan || (!IsFailed(s) && s.reconciled > 0))
    && x.lookup.Found? && (s.operation == NoOperation ==> x.okIntent)
  }

  lemma GoodPassCalls(s: Instance, x: Inputs, retry: Time)
    requires Good(s) && GoodInputs(x)
    ensures var call := Reconcile(s, x, retry).call;
      && (call == CallPoll <==> s.async && x.lookup.Found?)
      && (call == CallDeprovision <==> Deprovisions(s, x))
      && (call.CallProvision? <==> Provisions(s, x))
  {
    hide SendProvision, SendDeprovision, PollBroker;
  }

  /** In every reachable state: the exact condition of each call. */
  lemma PassCalls(w: World, from: nat, x: Inputs)
    requires Reachable(w) && from < |w.history| && GoodInputs(x)
    ensures var s := w.history[from].state;
      var call := Reconcile(s, x, w.retry).call;
      && (call == CallPoll <==> s.async && x.lookup.Found?)
      && (call == CallDeprovision <==> Deprovisions(s, x))
      && (call.CallProvision? <==> Provisions(s, x))
  {
    hide Reconcile, Ordered, BrokerInv, Timely, Provisions, Deprovisions;
    ReachableInv(w);
    GoodVersion(w.history, from);
    GoodPassCalls(w.history[from].state, x, w.retry);
  }

  // ---------- The early writes ----------

  ghost predicate EarlyWritesAre(s: Instance, x: Inputs, tr: Trace) {
    var r, b := AfterReferences(s, tr), AfterIntent(s, tr);
    && (tr.references.Some? ==>
          && s.classRef.None? && s.planRef.None? && x.resolvedClass.Some? && x.resolvedPlan.Some?
          && r.classRef == x.resolvedClass && r.planRef == x.resolvedPlan)
    && SameStatus(s, r) && r.finalizer == s.finalizer && r.generation == s.generation && r.deleted == s.deleted
    && (tr.intent.Some? ==>
          && s.operation == NoOperation && b.operation == (if s.deleted then Deprovision else Provision)
          && b.start == Some(x.t0) && Sets(s, ConditionFalse, x.t0, b)
          && b.inProgress == (if s.deleted then s.inProgress else x.properties)
          && SameSpec(r, b) && b.finalizer == s.finalizer && b.failed == s.failed && b.external == s.external
          && b.async == s.async && b.orphan == s.orphan && b.lastOperation == s.lastOperation && b.reconciled == s.reconciled)
  }

  ghost predicate SameStatus(s: Instance, r: Instance) {
    && r.ready == s.ready && r.failed == s.failed && r.operation == s.operation && r.start == s.start
    && r.async == s.async && r.orphan == s.orphan && r.lastOperation == s.lastOperation
    && r.inProgress == s.inProgress && r.external == s.external && r.reconciled == s.reconciled
  }

  lemma GoodEarlyWrites(s: Instance, x: Inputs, retry: Time)
    requires Good(s) && GoodInputs(x)
    ensures EarlyWritesAre(s, x, Reconcile(s, x, retry))
  {
    hide SendProvision, SendDeprovision, PollBroker, SetCond;
  }

  /** In every reachable state: a reference update stores what was resolved, and an intent names its operation, its start and its request. */
  lemma EarlyWritesRecord(w: World, from: nat, x: Inputs)
    requires Reachable(w) && from < |w.history| && GoodInputs(x)
    ensures EarlyWritesAre(w.history[from].state, x, Reconcile(w.history[from].state, x, w.retry))
  {
    hide Reconcile, Ordered, BrokerInv, Timely, EarlyWritesAre;
    ReachableInv(w);
    GoodVersion(w.history, from);
    GoodEarlyWrites(w.history[from].state, x, w.retry);
  }

  // ---------- Passes without a call ----------

  /** Nothing is asked of the controller: done, failed, or already released. */
  predicate NeedsNothing(s: Instance, x: Inputs) {
    if s.async then false
    else if s.deleted || s.orphan then !s.finalizer && x.credentials.NoCredentials?
    else IsFailed(s) || s.reconciled > 0
  }

  /** Released without a word to the broker. */
  predicate Releases(s: Instance, x: Inputs) {
    MayRemove(s, x) && !s.orphan && (IsFailed(s) || s.reconciled == 0)
  }

  predicate Blocked(s: Instance, x: Inputs) {
    !s.async && (s.deleted || s.orphan) && x.credentials.SomeCredentials?
  }

  ghost predicate SilentOutcome(s: Instance, x: Inputs, tr: Trace) {
    var b, n := AfterIntent(s, tr), AfterFinal(s, tr);
    && SameSpec(b, n) && GoesOn(b, n) && n.start == b.start && n.inProgress == b.inProgress
    && n.external == b.external && n.failed == b.failed && tr.polling == LeavePolling
    && (n.finalizer == (b.finalizer && !Releases(s, x)))
    && (n.ready == b.ready || Sets(b, ConditionFalse, x.t0, n))
    && (NeedsNothing(s, x) <==> tr == IDLE)
    && (Releases(s, x) ==> n.ready == b.ready && Reports(tr, x.okFinal, LeavePolling))
    && (Blocked(s, x) ==> Sets(b, ConditionFalse, x.t0, n) && Reports(tr, x.okFinal, LeavePolling))
    && (!NeedsNothing(s, x) && !Releases(s, x) && !Blocked(s, x) ==> tr.failed)
  }

  lemma SilentPoll(s: Instance, x: Inputs, retry: Time)
    requires Good(s) && GoodInputs(x) && Reconcile(s, x, retry).call == NoCall && s.async
    ensures SilentOutcome(s, x, Reconcile(s, x, retry))
  {
    hide SendProvision, SendDeprovision, PollBroker, SetCond;
  }

  lemma SilentList(s: Instance, x: Inputs, retry: Time)
    requires Good(s) && GoodInputs(x) && Reconcile(s, x, retry).call == NoCall && !s.async && (s.deleted || s.orphan)
    requires !x.credentials.NoCredentials? || !s.finalizer
    ensures SilentOutcome(s, x, Reconcile(s, x, retry))
  {
    hide SendProvision, SendDeprovision, PollBroker, SetCond;
  }

  lemma SilentRelease(s: Instance, x: Inputs, retry: Time)
    requires Good(s) && GoodInputs(x) && Reconcile(s, x, retry).call == NoCall && !s.async && (s.deleted || s.orphan)
    requires x.credentials.NoCredentials? && s.finalizer && !s.orphan && (IsFailed(s) || s.reconciled == 0)
    ensures SilentOutcome(s, x, Reconcile(s, x, retry))
  {
    hide SendProvision, SendDeprovision, PollBroker, SetCond;
  }

  lemma SilentRemove(s: Instance, x: Inputs, retry: Time)
    requires Good(s) && GoodInputs(x) && Reconcile(s, x, retry).call == NoCall && !s.async && (s.deleted || s.orphan)
    requires x.credentials.NoCredentials? && s.finalizer && (s.orphan || (!IsFailed(s) && s.reconciled > 0))
    ensures SilentOutcome(s, x, Reconcile(s, x, retry))
  {
    hide SendProvision, SendDeprovision, PollBroker, SetCond;
  }

  lemma SilentProvision(s: Instance, x: Inputs, retry: Time)
    requires Good(s) && GoodInputs(x) && Reconcile(s, x, retry).call == NoCall && !s.async && !s.deleted && !s.orphan && s.classRef.Some?
    ensures SilentOutcome(s, x, Reconcile(s, x, retry))
  {
    hide SendProvision, SendDeprovision, PollBroker, SetCond;
  }

  lemma SilentResolve(s: Instance, x: Inputs, retry: Time)
    requires Good(s) && GoodInputs(x) && Reconcile(s, x, retry).call == NoCall && !s.async && !s.deleted && !s.orphan && s.classRef.None?
    ensures SilentOutcome(s, x, Reconcile(s, x, retry))
  {
    hide SendProvision, SendDeprovision, PollBroker, SetCond;
  }

  /** In every reachable state: a pass without a call does nothing, releases, reports what blocks it, or fails. */
  lemma SilentPass(w: World, from: nat, x: Inputs)
    requires Reachable(w) && from < |w.history| && GoodInputs(x)
    requires Reconcile(w.history[from].state, x, w.retry).call == NoCall
    ensures SilentOutcome(w.history[from].state, x, Reconcile(w.history[from].state, x, w.retry))
  {
    hide Reconcile, Ordered, BrokerInv, Timely, SilentOutcome;
    ReachableInv(w);
    GoodVersion(w.history, from);
    var s := w.history[from].state;
    if s.async {
      SilentPoll(s, x, w.retry);
    } else if (s.deleted || s.orphan) && (!x.credentials.NoCredentials? || !s.finalizer) {
      SilentList(s, x, w.retry);
    } else if (s.deleted || s.orphan) && !s.orphan && (IsFailed(s) || s.reconciled == 0) {
      SilentRelease(s, x, w.retry);
    } else if s.deleted || s.orphan {
      SilentRemove(s, x, w.retry);
    } else if s.classRef.Some? {
      SilentProvision(s, x, w.retry);
    } else {
      SilentResolve(s, x, w.retry);
    }
  }

  // ---------- Readiness is reached ----------

  /** One pass over a created instance makes it ready, for every request and every name, on a validating server. */
  lemma ReadyIsReachable(p: Properties, cls: Name, plan: Name) returns (e: Event, w: World)
    requires WellFormed(p)
    ensures e.Pass? && Legal(EXAMPLE_START, e) && w == Next(EXAMPLE_START, e) && Reachable(w) && !w.gone && w.validates && w.history != []
    ensures e.from == 0 && e.inputs.credentials.NoCredentials?
    ensures IsReady(Stored(w)) && Stored(w).external == Some(p) && !Stored(w).async
    ensures Stored(w).classRef == Some(cls) && Stored(w).planRef == Some(plan)
  {
    e := Pass(0, ExampleInputs(p, cls, plan, ProvisionDone), Commits(true, true, true), true);
    w := Next(EXAMPLE_START, e);
    RunsFrom(EXAMPLE_START, e, [], w);
  }

  // ---------- The owners of the fields ----------

  /**
    The three ways to update an object own different fields: a status update and a reference update
    of the same object commute but for the finalizers, and a main update after either undoes nothing.
   */
  lemma UpdatesCommute(status: Instance, references: Instance, main: Instance, stored: Instance)
    ensures var a := PrepareForReferencesUpdate(references, PrepareForStatusUpdate(status, stored));
      var b := PrepareForStatusUpdate(status, PrepareForReferencesUpdate(references, stored));
      && a == b.(finalizer := a.finalizer)
      && a.classRef == references.classRef && a.planRef == references.planRef && SameStatus(status, a)
      && a.generation == stored.generation && a.deleted == stored.deleted && a.finalizer == references.finalizer
      && SameStatus(a, PrepareForUpdate(main, a)) && SameSpec(a, PrepareForUpdate(main, a))
      && PrepareForUpdate(main, a).finalizer == main.finalizer
  {
  }

  /** Every created instance is new, of the first generation, and acceptable to creation. */
  lemma CreatedIsNew()
    ensures PhaseOf(CREATED) == New && CREATED.generation == 1 && !CREATED.deleted && CREATED.finalizer
    ensures CREATED.ready.None? && CREATED.failed.None? && CREATED.classRef.None? && CREATED.planRef.None?
    ensures InstanceValidation.ValidStatus(CREATED, true) && InstanceValidation.ValidGeneration(CREATED, true)
  {
  }
}
