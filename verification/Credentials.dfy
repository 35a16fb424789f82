/**
  A ServiceInstanceCredential, the secret it fills, and one pass of the credential control loop as
  a pure function of the snapshot it starts from.
 */
module Credentials {
  import opened Common
  import Instances

  datatype Operation = NoOperation | Bind | Unbind | Unsupported

  datatype Credential = Credential(
    generation: nat,
    deleted: bool,
    finalizer: bool,
    ready: Option<Cond>,
    failed: Option<Cond>,
    operation: Operation,
    start: Option<Time>,
    orphan: bool,
    inProgress: Option<Properties>,
    external: Option<Properties>,
    reconciled: nat
  )

  predicate IsFailed(i: Credential) { Is(i.failed, ConditionTrue) }

  predicate IsReady(i: Credential) { Is(i.ready, ConditionTrue) }

  // ---------- Helpers that change a copy of the credential ----------

  function SetReady(i: Credential, status: ConditionStatus, t: Time): Credential {
    i.(ready := SetCond(i.ready, status, t))
  }

  function SetFailed(i: Credential, t: Time): Credential {
    i.(failed := SetCond(i.failed, ConditionTrue, t))
  }

  function RecordStart(i: Credential, operation: Operation, t: Time): Credential {
    SetReady(i.(operation := operation, start := Some(t)), ConditionFalse, t)
  }

  function ClearOperation(i: Credential): Credential {
    i.(operation := NoOperation, start := None, reconciled := i.generation, inProgress := None, orphan := false)
  }

  /** setAndUpdateOrphanMitigation, up to the status update. */
  function StartOrphanMitigation(i: Credential, t: Time): Credential {
    SetReady(i.(orphan := true, start := None, inProgress := None), ConditionFalse, t)
  }

  // ---------- The API server's view of an update ----------

  const CREATED := Credential(1, false, true, None, None, NoOperation, None, false, None, None, 0)

  function PrepareForUpdate(submitted: Credential, stored: Credential): Credential {
    stored.(finalizer := submitted.finalizer)
  }

  function PrepareForStatusUpdate(submitted: Credential, stored: Credential): Credential {
    submitted.(generation := stored.generation, deleted := stored.deleted)
  }

  // ---------- Secrets ----------

  /** A value of the broker's credentials: a string, or something to marshal, if that succeeds. */
  datatype Value = Text(text: string) | Structured(json: Option<string>)

  type Payload = map<Name, Value>

  /** serialize: strings go in verbatim, everything else as JSON. */
  function Serialize(v: Value): Option<string> {
    match v
    case Text(s) => Some(s)
    case Structured(json) => json
  }

  /** The secret data for a payload, if every value serializes. */
  function SerializeAll(p: Payload): Option<map<Name, string>> {
    if forall k :: k in p ==> Serialize(p[k]).Some? then Some(map k | k in p :: Serialize(p[k]).value)
    else None
  }

  datatype OwnerReference = OwnerReference(uid: nat, controller: Option<bool>)

  /** GetControllerOf: the first reference marked as the controller. */
  function ControllerOf(refs: seq<OwnerReference>): Option<nat> {
    if refs == [] then None
    else if refs[0].controller == Some(true) then Some(refs[0].uid)
    else ControllerOf(refs[1..])
  }

  datatype Secret = Secret(owners: seq<OwnerReference>, data: map<Name, string>)

  /** IsControlledBy */
  predicate ControlledBy(s: Secret, uid: nat) {
    ControllerOf(s.owners) == Some(uid)
  }

  /** A write to the secret store: done, done without the caller knowing, or not done. */
  datatype SecretWrite = Written | WrittenUnreported | NotWritten

  /** injectServiceInstanceCredential: the secret afterwards, and whether it succeeded. */
  function Inject(secret: Option<Secret>, uid: nat, p: Payload, getFails: bool, write: SecretWrite): (Option<Secret>, bool) {
    var data := SerializeAll(p);
    if data.None? || getFails then (secret, false)
    else if secret.Some? && !ControlledBy(secret.value, uid) then (secret, false)
    else
      var owners := if secret.Some? then secret.value.owners else [OwnerReference(uid, Some(true))];
      (if write.NotWritten? then secret else Some(Secret(owners, data.value)), write.Written?)
  }

  /** ejectServiceInstanceCredential deletes by name, whoever controls the secret. */
  function Eject(secret: Option<Secret>, write: SecretWrite): (Option<Secret>, bool) {
    (if write.NotWritten? then secret else None, write.Written?)
  }

  // ---------- What one pass observes ----------

  datatype Lookup = Absent | NoClient | Found

  datatype BindReply =
    | BindDone(payload: Payload)
    | BindTimeout
    | BindHttpError(code: int)
    | BindError

  datatype UnbindReply = UnbindDone | UnbindHttpError | UnbindError

  datatype Inputs = Inputs(
    instance: Option<Instances.Instance>,
    lookup: Lookup,
    bindable: bool,
    namespaceFound: bool,
    properties: Option<Properties>,
    bind: BindReply,
    injected: bool,      // the secret was filled
    ejected: bool,       // the secret was deleted or absent
    unbind: UnbindReply,
    t0: Time,
    t1: Time,
    okIntent: bool,
    okFinal: bool
  )

  datatype Call = NoCall | CallBind(properties: Properties) | CallUnbind

  /**
    What a pass did: perhaps ejected the secret, recorded an intent, called the broker, injected the
    secret, and wrote a last status.
   */
  datatype Trace = Trace(
    eject: bool,
    intent: Option<Credential>,
    call: Call,
    inject: bool,
    final: Option<Credential>,
    failed: bool,
    crashed: bool
  )

  const IDLE := Trace(false, None, NoCall, false, None, false, false)

  function Stop(tr: Trace): Trace { tr.(failed := true) }

  function Crash(tr: Trace): Trace { tr.(failed := true, crashed := true) }

  function End(tr: Trace, o: Credential, ok: bool): Trace { tr.(final := Some(o), failed := !ok) }

  function EndFailing(tr: Trace, o: Credential): Trace { tr.(final := Some(o), failed := true) }

  // ---------- reconcileServiceInstanceCredential ----------

  function Reconcile(s: Credential, x: Inputs, retry: Time): Trace {
    if IsFailed(s) && !s.deleted && !s.orphan then IDLE
    else if !s.deleted && s.reconciled == s.generation then IDLE
    else if x.instance.None? || x.instance.value.async then EndFailing(IDLE, SetReady(s, ConditionFalse, x.t0))
    else if x.instance.value.classRef.None? || x.instance.value.planRef.None? || x.lookup.NoClient? then Stop(IDLE)
    else if x.lookup.Absent? then EndFailing(IDLE, SetReady(s, ConditionFalse, x.t0))
    else if !x.bindable then End(IDLE, SetReady(s, ConditionFalse, x.t0), x.okFinal)
    else if !s.deleted && !s.orphan then PrepareBind(s, x, retry)
    else if s.finalizer || s.orphan then PrepareUnbind(s, x, retry)
    else IDLE
  }

  function PrepareBind(s: Credential, x: Inputs, retry: Time): Trace {
    if !x.namespaceFound then EndFailing(IDLE, SetReady(s, ConditionFalse, x.t0))
    else if x.instance.None? || !Instances.IsReady(x.instance.value) then
      End(IDLE, SetReady(s, ConditionFalse, x.t0), x.okFinal)
    else if x.properties.None? then EndFailing(IDLE, SetReady(s, ConditionFalse, x.t0))
    else
      var o := s.(inProgress := x.properties);
      if o.operation != NoOperation then SendBind(IDLE, o, x, retry)
      else
        var o1 := RecordStart(o, Bind, x.t0);
        var tr := IDLE.(intent := Some(o1));
        if !x.okIntent then Stop(tr) else SendBind(tr, o1, x, retry)
  }

  function SendBind(tr0: Trace, o: Credential, x: Inputs, retry: Time): (tr: Trace)
    requires x.properties.Some?
    ensures tr.call == CallBind(x.properties.value) && tr.intent == tr0.intent && tr.eject == tr0.eject
  {
    var tr := tr0.(call := CallBind(x.properties.value));
    match x.bind
    case BindTimeout => End(tr, StartOrphanMitigation(SetFailed(o, x.t1), x.t1), x.okFinal)
    case BindHttpError(code) =>
      var o1 := SetFailed(o, x.t1);
      if Instances.ShouldStartOrphanMitigation(code) then End(tr, StartOrphanMitigation(o1, x.t1), x.okFinal)
      else End(tr, ClearOperation(SetReady(o1, ConditionFalse, x.t1)), x.okFinal)
    case BindError =>
      var o1 := SetReady(o, ConditionFalse, x.t1);
      if o1.start.None? then Crash(tr)
      else if Instances.Expired(o1.start.value, retry, x.t1) then
        End(tr, ClearOperation(SetFailed(o1, x.t1)), x.okFinal)
      else EndFailing(tr, o1)
    case BindDone(_) =>
      var tr1 := tr.(inject := true);
      var o1 := o.(external := o.inProgress);
      if x.injected then End(tr1, SetReady(ClearOperation(o1), ConditionTrue, x.t1), x.okFinal)
      else
        var o2 := SetReady(o1, ConditionFalse, x.t1);
        if o2.start.None? then Crash(tr1)
        else if Instances.Expired(o2.start.value, retry, x.t1) then
          End(tr1, StartOrphanMitigation(SetFailed(o2, x.t1), x.t1), x.okFinal)
        else EndFailing(tr1, o2)
  }

  function PrepareUnbind(s: Credential, x: Inputs, retry: Time): Trace {
    var tr := IDLE.(eject := true);
    if !x.ejected then EndFailing(tr, SetReady(s, ConditionUnknown, x.t0))
    else if s.operation == NoOperation then
      var o := RecordStart(s, Unbind, x.t0);
      var tr' := tr.(intent := Some(o));
      if !x.okIntent then Stop(tr') else SendUnbind(tr', o, x, retry)
    else SendUnbind(tr, if s.orphan && s.start.None? then s.(start := Some(x.t0)) else s, x, retry)
  }

  function SendUnbind(tr0: Trace, o: Credential, x: Inputs, retry: Time): (tr: Trace)
    ensures tr.call == CallUnbind && tr.intent == tr0.intent && tr.eject == tr0.eject && tr.inject == tr0.inject
  {
    var tr := tr0.(call := CallUnbind);
    match x.unbind
    case UnbindHttpError =>
      var o1 := SetReady(o, ConditionUnknown, x.t1);
      End(tr, ClearOperation(if o.orphan then o1 else SetFailed(o1, x.t1)), x.okFinal)
    case UnbindError =>
      var o1 := SetReady(o, ConditionUnknown, x.t1);
      if o1.start.None? then Crash(tr)
      else if Instances.Expired(o1.start.value, retry, x.t1) then
        End(tr, ClearOperation(SetFailed(o1, x.t1)), x.okFinal)
      else EndFailing(tr, o1)
    case UnbindDone =>
      var o1 := SetReady(o, ConditionFalse, x.t1);
      var o2 := if o.orphan then o1 else o1.(finalizer := false);
      End(tr, ClearOperation(o2.(external := None)), x.okFinal)
  }
}
