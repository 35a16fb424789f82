/**
  A ServiceInstance as the controller and the API server see it, and one pass of the
  instance control loop as a pure function of the snapshot it starts from.
 */
module Instances {
  import opened Common

  /** ServiceInstanceOperation; `Unsupported` stands for every string validation does not know. */
  datatype Operation = NoOperation | Provision | Update | Deprovision | Unsupported

  datatype Instance = Instance(
    generation: nat,
    deleted: bool,               // the deletion timestamp is set
    finalizer: bool,             // the catalog finalizer is present
    classRef: Option<Name>,
    planRef: Option<Name>,
    ready: Option<Cond>,
    failed: Option<Cond>,
    operation: Operation,
    start: Option<Time>,         // OperationStartTime
    async: bool,                 // AsyncOpInProgress
    orphan: bool,                // OrphanMitigationInProgress
    lastOperation: Option<Name>,
    inProgress: Option<Properties>,
    external: Option<Properties>,
    reconciled: nat              // ReconciledGeneration
  )

  predicate IsFailed(i: Instance) { Is(i.failed, ConditionTrue) }

  predicate IsReady(i: Instance) { Is(i.ready, ConditionTrue) }

  // ---------- Helpers that change a copy of the instance ----------

  function SetReady(i: Instance, status: ConditionStatus, t: Time): Instance {
    i.(ready := SetCond(i.ready, status, t))
  }

  function SetFailed(i: Instance, t: Time): Instance {
    i.(failed := SetCond(i.failed, ConditionTrue, t))
  }

  function RecordStart(i: Instance, operation: Operation, t: Time): Instance {
    SetReady(i.(operation := operation, start := Some(t)), ConditionFalse, t)
  }

  function ClearOperation(i: Instance): Instance {
    i.(operation := NoOperation, start := None, async := false, orphan := false,
       lastOperation := None, inProgress := None, reconciled := i.generation)
  }

  function StartOrphanMitigation(i: Instance): Instance {
    i.(start := None, async := false, orphan := true, inProgress := None)
  }

  /** Replies of a provision call after which the broker may hold an orphan. */
  predicate ShouldStartOrphanMitigation(code: int) {
    (200 <= code < 300 && code != 200) || code == 408 || 500 <= code < 600
  }

  /** The operation's retry window is over. */
  predicate Expired(start: Time, retry: Time, now: Time) {
    start + retry <= now
  }

  // ---------- The API server's view of an update ----------

  /** What every create request becomes before it is stored. */
  const CREATED :=
    Instance(1, false, true, None, None, None, None, NoOperation, None, false, false, None, None, None, 0)

  /** A main update keeps status, spec and generation. */
  function PrepareForUpdate(submitted: Instance, stored: Instance): Instance {
    stored.(finalizer := submitted.finalizer)
  }

  /** A status update keeps the spec and the server-owned metadata. */
  function PrepareForStatusUpdate(submitted: Instance, stored: Instance): Instance {
    submitted.(classRef := stored.classRef, planRef := stored.planRef,
               generation := stored.generation, deleted := stored.deleted)
  }

  /** A reference update keeps everything but the two references and the finalizers. */
  function PrepareForReferencesUpdate(submitted: Instance, stored: Instance): Instance {
    stored.(classRef := submitted.classRef, planRef := submitted.planRef, finalizer := submitted.finalizer)
  }

  // ---------- What one pass observes of its surroundings ----------

  datatype Listing = ListingFailed | NoCredentials | SomeCredentials

  /** The class, plan, broker and client look-up; all but a missing client are reported in a condition. */
  datatype Lookup = ClassAbsent | PlanOrBrokerAbsent | NoClient | Found

  datatype ProvisionReply =
    | ProvisionDone
    | ProvisionAccepted(key: Option<Name>)
    | ProvisionHttpError(code: int)
    | ProvisionTimeout
    | ProvisionError

  datatype DeprovisionReply =
    | DeprovisionDone
    | DeprovisionAccepted(key: Option<Name>)
    | DeprovisionHttpError(code: int)
    | DeprovisionError

  datatype PollReply =
    | PollGone
    | PollError
    | PollInProgress(described: bool)
    | PollSucceeded
    | PollFailed
    | PollInvalid

  /**
    Everything a pass reads besides its snapshot: listings and look-ups, the broker's replies, the
    clock before (t0) and after (t1) the broker call, and which of its writes were reported as done.
   */
  datatype Inputs = Inputs(
    credentials: Listing,
    resolvedClass: Option<Name>,
    classGetOk: bool,
    resolvedPlan: Option<Name>,
    lookup: Lookup,
    namespaceFound: bool,
    properties: Option<Properties>,   // None: the parameters could not be built
    provision: ProvisionReply,
    deprovision: DeprovisionReply,
    poll: PollReply,
    t0: Time,
    t1: Time,
    okReferences: bool,
    okIntent: bool,
    okFinal: bool
  )

  datatype Call = NoCall | CallProvision(properties: Properties) | CallDeprovision | CallPoll

  datatype Polling = LeavePolling | KeepPolling | FinishPolling

  /**
    What a pass did, in order: at most one reference update, one status update that records the
    intent, one broker call and one last status update; then its result and what it did to the
    polling queue. `crashed` marks a nil dereference.
   */
  datatype Trace = Trace(
    references: Option<Instance>,
    intent: Option<Instance>,
    call: Call,
    final: Option<Instance>,
    failed: bool,
    polling: Polling,
    crashed: bool
  )

  const IDLE := Trace(None, None, NoCall, None, false, LeavePolling, false)

  /** The pass stops with an error and without a last write. */
  function Stop(tr: Trace): Trace {
    tr.(failed := true)
  }

  function Crash(tr: Trace): Trace {
    tr.(failed := true, crashed := true)
  }

  /** The pass ends with a status update and succeeds if that write does. */
  function End(tr: Trace, o: Instance, ok: bool, polling: Polling): Trace {
    tr.(final := Some(o), failed := !ok, polling := if ok then polling else LeavePolling)
  }

  /** The pass ends with a status update and reports an error in any case. */
  function EndFailing(tr: Trace, o: Instance): Trace {
    tr.(final := Some(o), failed := true)
  }

  /** Looking up the class or the plan follows a reference that is nil. */
  predicate LookupCrashes(o: Instance, lookup: Lookup) {
    o.classRef.None? || (o.planRef.None? && !lookup.ClassAbsent?)
  }

  /** The operation key to remember when the broker accepts a request. */
  function RememberKey(o: Instance, key: Option<Name>): Instance {
    if key.Some? && key.value != "" then o.(lastOperation := key) else o
  }

  // ---------- reconcileServiceInstance ----------

  function Reconcile(s: Instance, x: Inputs, retry: Time): Trace {
    if s.async then PollOperation(s, x, retry)
    else if s.deleted || s.orphan then ReconcileDelete(s, x, retry)
    else if IsFailed(s) || s.reconciled == s.generation then IDLE
    else ReconcileProvision(s, x, retry)
  }

  function ReconcileProvision(s: Instance, x: Inputs, retry: Time): Trace {
    if s.classRef.Some? && s.planRef.Some? then PrepareProvision(IDLE, s, x, retry)
    else
      var cls := if s.classRef.Some? then s.classRef else x.resolvedClass;
      if cls.None? then EndFailing(IDLE, SetReady(s, ConditionFalse, x.t0))
      else
        var o := s.(classRef := cls);
        if s.planRef.None? && s.classRef.Some? && !x.classGetOk then Stop(IDLE)
        else if s.planRef.None? && x.resolvedPlan.None? then EndFailing(IDLE, SetReady(o, ConditionFalse, x.t0))
        else
          var o' := if s.planRef.None? then o.(planRef := x.resolvedPlan) else o;
          var tr := IDLE.(references := Some(o'));
          if !x.okReferences then Stop(tr) else PrepareProvision(tr, o', x, retry)
  }

  function PrepareProvision(tr: Trace, o: Instance, x: Inputs, retry: Time): Trace {
    if LookupCrashes(o, x.lookup) then Crash(tr)
    else if x.lookup.NoClient? then Stop(tr)
    else if !x.lookup.Found? || !x.namespaceFound || x.properties.None? then
      EndFailing(tr, SetReady(o, ConditionFalse, x.t0))
    else
      var o1 := o.(inProgress := x.properties);
      if o1.operation != NoOperation then SendProvision(tr, o1, x, retry)
      else
        var o2 := RecordStart(o1, Provision, x.t0);
        var tr' := tr.(intent := Some(o2));
        if !x.okIntent then Stop(tr') else SendProvision(tr', o2, x, retry)
  }

  function SendProvision(tr0: Trace, o: Instance, x: Inputs, retry: Time): (tr: Trace)
    requires x.properties.Some?
    ensures tr.call == CallProvision(x.properties.value)
    ensures tr.references == tr0.references && tr.intent == tr0.intent
  {
    var tr := tr0.(call := CallProvision(x.properties.value));
    match x.provision
    case ProvisionHttpError(code) =>
      var o1 := SetReady(SetFailed(o, x.t1), ConditionFalse, x.t1);
      if ShouldStartOrphanMitigation(code) then EndFailing(tr, StartOrphanMitigation(o1))
      else End(tr, ClearOperation(o1), x.okFinal, LeavePolling)
    case ProvisionTimeout =>
      EndFailing(tr, StartOrphanMitigation(SetFailed(SetReady(o, ConditionFalse, x.t1), x.t1)))
    case ProvisionError =>
      var o1 := SetReady(o, ConditionFalse, x.t1);
      if o1.start.None? then Crash(tr)
      else if Expired(o1.start.value, retry, x.t1) then
        End(tr, ClearOperation(SetFailed(o1, x.t1)), x.okFinal, LeavePolling)
      else EndFailing(tr, o1)
    case ProvisionAccepted(key) =>
      var o1 := RememberKey(o, key).(async := true);
      End(tr, SetReady(o1, ConditionFalse, x.t1), x.okFinal, KeepPolling)
    case ProvisionDone =>
      var o1 := ClearOperation(o.(external := o.inProgress));
      End(tr, SetReady(o1, ConditionTrue, x.t1), x.okFinal, LeavePolling)
  }

  // ---------- reconcileServiceInstanceDelete ----------

  function ReconcileDelete(s: Instance, x: Inputs, retry: Time): Trace {
    if !s.deleted && !s.orphan then IDLE
    else if x.credentials.ListingFailed? then Stop(IDLE)
    else if x.credentials.SomeCredentials? then
      End(IDLE, SetReady(s, ConditionFalse, x.t0), x.okFinal, LeavePolling)
    else if !s.finalizer then IDLE
    else if !s.async && !s.orphan && (IsFailed(s) || s.reconciled == 0) then
      End(IDLE, s.(finalizer := false), x.okFinal, LeavePolling)
    else if LookupCrashes(s, x.lookup) then Crash(IDLE)
    else if x.lookup.NoClient? then Stop(IDLE)
    else if !x.lookup.Found? then EndFailing(IDLE, SetReady(s, ConditionFalse, x.t0))
    else
      var o := if s.orphan && s.start.None? then s.(start := Some(x.t0)) else s;
      if o.operation != NoOperation then SendDeprovision(IDLE, s, o, x, retry)
      else
        var o1 := RecordStart(o, Deprovision, x.t0);
        var tr := IDLE.(intent := Some(o1));
        if !x.okIntent then Stop(tr) else SendDeprovision(tr, s, o1, x, retry)
  }

  /** Record a failure, except over the original reason of an orphan. */
  function FailUnlessOrphan(orphan: bool, o: Instance, t: Time): Instance {
    if orphan then o else SetFailed(o, t)
  }

  function SendDeprovision(tr0: Trace, s: Instance, o: Instance, x: Inputs, retry: Time): (tr: Trace)
    ensures tr.call == CallDeprovision
    ensures tr.references == tr0.references && tr.intent == tr0.intent
  {
    var tr := tr0.(call := CallDeprovision);
    match x.deprovision
    case DeprovisionHttpError(_) =>
      var o1 := FailUnlessOrphan(s.orphan, SetReady(o, ConditionUnknown, x.t1), x.t1);
      End(tr, ClearOperation(o1), x.okFinal, LeavePolling)
    case DeprovisionError =>
      var o1 := SetReady(o, ConditionUnknown, x.t1);
      if o1.start.None? then Crash(tr)
      else if Expired(o1.start.value, retry, x.t1) then
        End(tr, ClearOperation(FailUnlessOrphan(s.orphan, o1, x.t1)), x.okFinal, LeavePolling)
      else EndFailing(tr, o1)
    case DeprovisionAccepted(key) =>
      var o1 := RememberKey(o, key).(async := true);
      End(tr, SetReady(o1, ConditionFalse, x.t1), x.okFinal, KeepPolling)
    case DeprovisionDone =>
      var o1 := SetReady(ClearOperation(o).(external := None), ConditionFalse, x.t1);
      End(tr, if s.deleted then o1.(finalizer := false) else o1, x.okFinal, LeavePolling)
  }

  // ---------- pollServiceInstance ----------

  /** The operation being polled removes the instance from the broker. */
  predicate Deleting(s: Instance) {
    s.operation == Deprovision || s.orphan
  }

  function PollOperation(s: Instance, x: Inputs, retry: Time): Trace {
    if LookupCrashes(s, x.lookup) then Crash(IDLE)
    else if x.lookup.NoClient? then Stop(IDLE)
    else if !x.lookup.Found? then EndFailing(IDLE, SetReady(s, ConditionFalse, x.t0))
    else if s.start.None? then GiveUp(IDLE, s, s, x)
    else PollBroker(s, x, Expired(s.start.value, retry, x.t1))
  }

  /** Too much time has elapsed: a removal ends here, a provision becomes an orphan. */
  function GiveUp(tr: Trace, s: Instance, o: Instance, x: Inputs): Trace {
    var o1 := FailUnlessOrphan(s.orphan, o, x.t1);
    End(tr, if Deleting(s) then ClearOperation(o1) else StartOrphanMitigation(o1), x.okFinal, FinishPolling)
  }

  function PollBroker(s: Instance, x: Inputs, late: bool): (tr: Trace)
    ensures tr.call == CallPoll && tr.references.None? && tr.intent.None?
  {
    var tr := IDLE.(call := CallPoll);
    match x.poll
    case PollInProgress(described) =>
      var o := if described then SetReady(s.(async := true), ConditionFalse, x.t1) else s;
      if late then GiveUp(tr, s, o, x)
      else if described then End(tr, o, x.okFinal, KeepPolling)
      else tr.(polling := KeepPolling)
    case PollSucceeded =>
      var o := ClearOperation(s.(external := s.inProgress));
      if Deleting(s) then EndRemoval(tr, s, o, x)
      else End(tr, SetReady(o, ConditionTrue, x.t1), x.okFinal, FinishPolling)
    case PollFailed =>
      var o := SetReady(ClearOperation(s), if Deleting(s) then ConditionUnknown else ConditionFalse, x.t1);
      End(tr, FailUnlessOrphan(s.orphan, o, x.t1), x.okFinal, FinishPolling)
    case PollInvalid =>
      if late then GiveUp(tr, s, s, x) else Stop(tr)
    case _ =>
      if x.poll.PollGone? && Deleting(s) then EndRemoval(tr, s, ClearOperation(s).(external := None), x)
      else if late then GiveUp(tr, s, s, x)
      else tr.(polling := KeepPolling)
  }

  /** The broker confirmed a polled removal; the finalizer goes unless an orphan was removed. */
  function EndRemoval(tr: Trace, s: Instance, o: Instance, x: Inputs): Trace {
    var o1 := SetReady(o, ConditionFalse, x.t1);
    End(tr, if s.orphan then o1 else o1.(finalizer := false), x.okFinal, FinishPolling)
  }
}
