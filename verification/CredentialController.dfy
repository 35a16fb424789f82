/**
  The credential control loop in its own form, with the secret store it fills and empties. What a
  pass does is exactly the trace that Credentials.Reconcile gives.
 */
module CredentialController {
  import opened Common
  import opened Conditions
  import opened Credentials
  import opened CredentialObject
  import opened InstanceObject
  import opened Secrets
  import Instances

  class Controller {
    const inputs: Inputs
    const retry: Time
    const store: SecretStore
    var trace: Trace

    constructor (inputs: Inputs, retry: Time, store: SecretStore)
      ensures this.inputs == inputs && this.retry == retry && this.store == store && trace == IDLE
    {
      this.inputs := inputs;
      this.retry := retry;
      this.store := store;
      trace := IDLE;
    }

    // ---------- Writes ----------

    method Finish(toUpdate: ServiceInstanceCredential)
      requires !trace.failed
      modifies this
      ensures trace == End(old(trace), toUpdate.Value(), inputs.okFinal)
    {
      trace := trace.(final := Some(toUpdate.Value()));
      if !inputs.okFinal {
        trace := trace.(failed := true);
      }
    }

    method FinishFailing(toUpdate: ServiceInstanceCredential)
      modifies this
      ensures trace == EndFailing(old(trace), toUpdate.Value())
    {
      trace := trace.(final := Some(toUpdate.Value()));
      trace := trace.(failed := true);
    }

    /** recordStartOfServiceInstanceCredentialOperation */
    method RecordStartOfOperation(toUpdate: ServiceInstanceCredential, operation: Operation) returns (err: bool)
      requires toUpdate.Valid()
      modifies this, toUpdate
      ensures toUpdate.Valid() && toUpdate.Value() == RecordStart(old(toUpdate.Value()), operation, inputs.t0)
      ensures trace == old(trace).(intent := Some(toUpdate.Value())) && err == !inputs.okIntent
    {
      toUpdate.RecordStart(operation, inputs.t0);
      trace := trace.(intent := Some(toUpdate.Value()));
      err := !inputs.okIntent;
    }

    method Fail()
      modifies this
      ensures trace == Stop(old(trace))
    {
      trace := trace.(failed := true);
    }

    method Panic()
      modifies this
      ensures trace == Crash(old(trace))
    {
      trace := trace.(failed := true, crashed := true);
    }

    // ---------- reconcileServiceInstanceCredential ----------

    /**
      What the inputs say about the secret is what the store will do: `secret` is the slot the pass
      sees, `access` how each operation on it ends.
     */
    ghost predicate Consistent(binding: ServiceInstanceCredential)
      reads this, store
    {
      && (inputs.bind.BindDone? ==>
            inputs.injected == Inject(store.Slot(binding.secretName), binding.uid, inputs.bind.payload,
                                      store.getFails, store.write).1)
      && inputs.ejected == Eject(store.Slot(binding.secretName), store.write).1
    }

    /** The slot after a pass, from what the pass did. */
    function SlotAfter(binding: ServiceInstanceCredential, before: Option<Secret>): Option<Secret>
      reads this
    {
      if trace.eject then Eject(before, store.write).0
      else if trace.inject && inputs.bind.BindDone? then
        Inject(before, binding.uid, inputs.bind.payload, store.getFails, store.write).0
      else before
    }

    method ReconcileServiceInstanceCredential(binding: ServiceInstanceCredential)
      requires binding.Valid() && trace == IDLE && Consistent(binding)
      modifies this, store
      ensures trace == Reconcile(binding.Value(), inputs, retry)
      ensures store.Slot(binding.secretName) == SlotAfter(binding, old(store.Slot(binding.secretName)))
      ensures forall other :: other != binding.secretName ==> store.Slot(other) == old(store.Slot(other))
    {
      hide PrepareBind, PrepareUnbind, Inject, Eject, SetCond;
      var failed := AnyFailed(binding.conditions);
      SomeTrueIsSummary(binding.conditions, FailedCondition);
      if failed && binding.deletionTimestamp.None? && !binding.orphanMitigationInProgress {
        return;
      }
      if binding.deletionTimestamp.None? {
        if binding.reconciledGeneration == binding.generation {
          return;
        }
      }
      var toUpdate := new ServiceInstanceCredential.Copy(binding);
      if !CanProceed() {
        ReportObstacle(binding, toUpdate);
        return;
      }
      if binding.deletionTimestamp.None? && !binding.orphanMitigationInProgress {
        AddOrUpdate(binding, toUpdate);
        return;
      }
      if ServiceCatalog in binding.finalizers || binding.orphanMitigationInProgress {
        Remove(binding, toUpdate);
      }
    }

    predicate CanProceed() {
      && inputs.instance.Some? && !inputs.instance.value.async
      && inputs.instance.value.classRef.Some? && inputs.instance.value.planRef.Some?
      && inputs.lookup.Found? && inputs.bindable
    }

    /** What stands in the way of both branches, in the order the loop checks it. */
    method ReportObstacle(binding: ServiceInstanceCredential, toUpdate: ServiceInstanceCredential)
      requires toUpdate.Valid() && toUpdate != binding && toUpdate.Value() == binding.Value()
      requires trace == IDLE && !CanProceed()
      requires binding.deletionTimestamp.Some? ||
               (binding.reconciledGeneration != binding.generation && (IsFailed(binding.Value()) ==> binding.orphanMitigationInProgress))
      modifies this, toUpdate
      ensures trace == Reconcile(binding.Value(), inputs, retry) && !trace.eject && !trace.inject
    {
      hide PrepareBind, PrepareUnbind, SetCond;
      if inputs.instance.None? {
        toUpdate.SetReady(ConditionFalse, NoSuchInstance, inputs.t0);
        FinishFailing(toUpdate);
      } else if inputs.instance.value.async {
        toUpdate.SetReady(ConditionFalse, AsyncOperation, inputs.t0);
        FinishFailing(toUpdate);
      } else if inputs.instance.value.classRef.None? || inputs.instance.value.planRef.None? {
        Fail();
      } else if inputs.lookup.NoClient? {
        Fail();
      } else if inputs.lookup.Absent? {
        toUpdate.SetReady(ConditionFalse, NoSuchClass, inputs.t0);
        FinishFailing(toUpdate);
      } else {
        toUpdate.SetReady(ConditionFalse, NotBindable, inputs.t0);
        Finish(toUpdate);
      }
    }

    predicate CanBind() {
      && inputs.namespaceFound
      && inputs.instance.Some? && Instances.IsReady(inputs.instance.value)
      && inputs.properties.Some?
    }

    /** The branch that binds. */
    method AddOrUpdate(binding: ServiceInstanceCredential, toUpdate: ServiceInstanceCredential)
      requires toUpdate.Valid() && toUpdate != binding && toUpdate.Value() == binding.Value()
      requires trace == IDLE && Consistent(binding)
      modifies this, toUpdate, store
      ensures trace == PrepareBind(binding.Value(), inputs, retry)
      ensures store.Slot(binding.secretName) == SlotAfter(binding, old(store.Slot(binding.secretName)))
      ensures forall other :: other != binding.secretName ==> store.Slot(other) == old(store.Slot(other))
    {
      hide SendBind, Inject, Eject, RecordStart, Instances.IsReady;
      if CanBind() {
        toUpdate.inProgressProperties := inputs.properties;
        StartBind(binding, toUpdate);
      } else {
        ReportBlocked(binding, toUpdate);
      }
    }

    /** What stands in the way of a bind, in the order the loop checks it. */
    method ReportBlocked(binding: ServiceInstanceCredential, toUpdate: ServiceInstanceCredential)
      requires toUpdate.Valid() && toUpdate != binding && toUpdate.Value() == binding.Value()
      requires trace == IDLE && !CanBind()
      modifies this, toUpdate
      ensures trace == PrepareBind(binding.Value(), inputs, retry) && !trace.eject && !trace.inject
    {
      hide SendBind;
      if !inputs.namespaceFound {
        toUpdate.SetReady(ConditionFalse, NoSuchNamespace, inputs.t0);
        FinishFailing(toUpdate);
      } else if inputs.instance.None? || !Instances.IsReady(inputs.instance.value) {
        toUpdate.SetReady(ConditionFalse, InstanceNotReady, inputs.t0);
        Finish(toUpdate);
      } else {
        toUpdate.SetReady(ConditionFalse, BadParameters, inputs.t0);
        FinishFailing(toUpdate);
      }
    }

    /** Records the intent to bind unless it is on record, then binds. */
    method StartBind(binding: ServiceInstanceCredential, toUpdate: ServiceInstanceCredential)
      requires toUpdate.Valid() && toUpdate != binding && inputs.properties.Some?
      requires trace == IDLE && Consistent(binding)
      modifies this, toUpdate, store
      ensures
        var o := old(toUpdate.Value());
        var o1 := RecordStart(o, Bind, inputs.t0);
        trace ==
          if o.operation != NoOperation then SendBind(IDLE, o, inputs, retry)
          else if !inputs.okIntent then Stop(IDLE.(intent := Some(o1)))
          else SendBind(IDLE.(intent := Some(o1)), o1, inputs, retry)
      ensures store.Slot(binding.secretName) == SlotAfter(binding, old(store.Slot(binding.secretName)))
      ensures forall other :: other != binding.secretName ==> store.Slot(other) == old(store.Slot(other))
    {
      hide SendBind, Inject, Eject;
      if toUpdate.currentOperation == NoOperation {
        var err := RecordStartOfOperation(toUpdate, Bind);
        if err {
          Fail();
          return;
        }
      }
      CallBind(binding, toUpdate);
    }

    method CallBind(binding: ServiceInstanceCredential, toUpdate: ServiceInstanceCredential)
      requires toUpdate.Valid() && toUpdate != binding && inputs.properties.Some?
      requires trace.final.None? && !trace.failed && !trace.eject && !trace.inject && Consistent(binding)
      modifies this, toUpdate, store
      ensures trace == SendBind(old(trace), old(toUpdate.Value()), inputs, retry)
      ensures store.Slot(binding.secretName) == SlotAfter(binding, old(store.Slot(binding.secretName)))
      ensures forall other :: other != binding.secretName ==> store.Slot(other) == old(store.Slot(other))
    {
      hide Inject, Eject, SetCond;
      trace := trace.(call := Call.CallBind(inputs.properties.value));
      if inputs.bind.BindDone? {
        toUpdate.externalProperties := toUpdate.inProgressProperties;
        trace := trace.(inject := true);
        var ok := store.InjectCredential(binding.secretName, binding.uid, inputs.bind.payload);
        AfterInjection(toUpdate, ok);
      } else {
        BindFailure(toUpdate);
      }
    }

    /** The replies to Bind that are no success. */
    method BindFailure(toUpdate: ServiceInstanceCredential)
      requires toUpdate.Valid() && inputs.properties.Some? && !inputs.bind.BindDone?
      requires trace.final.None? && !trace.failed && !trace.eject && !trace.inject
      requires trace.call == Call.CallBind(inputs.properties.value)
      modifies this, toUpdate
      ensures trace == SendBind(old(trace), old(toUpdate.Value()), inputs, retry) && !trace.eject && !trace.inject
    {
      match inputs.bind
      case BindTimeout =>
        toUpdate.SetFailed(BindFailed, inputs.t1);
        toUpdate.StartOrphanMitigation(inputs.t1);
        Finish(toUpdate);
      case BindHttpError(code) =>
        toUpdate.SetFailed(BindFailed, inputs.t1);
        if 200 < code < 300 || code == 408 || 500 <= code < 600 {
          toUpdate.StartOrphanMitigation(inputs.t1);
          Finish(toUpdate);
          return;
        }
        toUpdate.SetReady(ConditionFalse, BindFailed, inputs.t1);
        toUpdate.ClearCurrentOperation();
        Finish(toUpdate);
      case BindError =>
        toUpdate.SetReady(ConditionFalse, BindFailed, inputs.t1);
        if toUpdate.operationStartTime.None? {
          Panic();
          return;
        }
        if Instances.Expired(toUpdate.operationStartTime.value, retry, inputs.t1) {
          toUpdate.SetFailed(RetryTimeout, inputs.t1);
          toUpdate.ClearCurrentOperation();
          Finish(toUpdate);
          return;
        }
        FinishFailing(toUpdate);
    }

    method AfterInjection(toUpdate: ServiceInstanceCredential, ok: bool)
      requires toUpdate.Valid() && trace.final.None? && !trace.failed
      modifies this, toUpdate
      ensures
        var o := old(toUpdate.Value());
        var o1 := SetReady(o, ConditionFalse, inputs.t1);
        trace ==
          if ok then End(old(trace), SetReady(ClearOperation(o), ConditionTrue, inputs.t1), inputs.okFinal)
          else if o.start.None? then Crash(old(trace))
          else if Instances.Expired(o.start.value, retry, inputs.t1) then
            End(old(trace), Credentials.StartOrphanMitigation(SetFailed(o1, inputs.t1), inputs.t1), inputs.okFinal)
          else EndFailing(old(trace), o1)
    {
      if !ok {
        toUpdate.SetReady(ConditionFalse, InjectFailed, inputs.t1);
        if toUpdate.operationStartTime.None? {
          Panic();
          return;
        }
        if Instances.Expired(toUpdate.operationStartTime.value, retry, inputs.t1) {
          toUpdate.SetFailed(RetryTimeout, inputs.t1);
          toUpdate.StartOrphanMitigation(inputs.t1);
          Finish(toUpdate);
          return;
        }
        FinishFailing(toUpdate);
        return;
      }
      toUpdate.ClearCurrentOperation();
      toUpdate.SetReady(ConditionTrue, Injected, inputs.t1);
      Finish(toUpdate);
    }

    /** The branch that unbinds. */
    method Remove(binding: ServiceInstanceCredential, toUpdate: ServiceInstanceCredential)
      requires toUpdate.Valid() && toUpdate != binding && toUpdate.Value() == binding.Value()
      requires trace == IDLE && Consistent(binding)
      modifies this, toUpdate, store
      ensures trace == PrepareUnbind(binding.Value(), inputs, retry)
      ensures store.Slot(binding.secretName) == SlotAfter(binding, old(store.Slot(binding.secretName)))
      ensures forall other :: other != binding.secretName ==> store.Slot(other) == old(store.Slot(other))
    {
      trace := trace.(eject := true);
      var ok := store.EjectCredential(binding.secretName);
      if !ok {
        toUpdate.SetReady(ConditionUnknown, EjectFailed, inputs.t0);
        FinishFailing(toUpdate);
        return;
      }
      if toUpdate.currentOperation == NoOperation {
        var err := RecordStartOfOperation(toUpdate, Unbind);
        if err {
          Fail();
          return;
        }
      } else if toUpdate.orphanMitigationInProgress && toUpdate.operationStartTime.None? {
        toUpdate.operationStartTime := Some(inputs.t0);
      }
      CallUnbind(toUpdate);
    }

    method CallUnbind(toUpdate: ServiceInstanceCredential)
      requires toUpdate.Valid() && trace.final.None? && !trace.failed
      modifies this, toUpdate
      ensures trace == SendUnbind(old(trace), old(toUpdate.Value()), inputs, retry)
    {
      trace := trace.(call := Call.CallUnbind);
      match inputs.unbind
      case UnbindHttpError =>
        toUpdate.SetReady(ConditionUnknown, UnbindFailed, inputs.t1);
        if !toUpdate.orphanMitigationInProgress {
          toUpdate.SetFailed(UnbindFailed, inputs.t1);
        }
        toUpdate.ClearCurrentOperation();
        Finish(toUpdate);
      case UnbindError =>
        toUpdate.SetReady(ConditionUnknown, UnbindFailed, inputs.t1);
        if toUpdate.operationStartTime.None? {
          Panic();
          return;
        }
        if Instances.Expired(toUpdate.operationStartTime.value, retry, inputs.t1) {
          toUpdate.SetFailed(RetryTimeout, inputs.t1);
          toUpdate.ClearCurrentOperation();
          Finish(toUpdate);
          return;
        }
        FinishFailing(toUpdate);
      case UnbindDone =>
        if toUpdate.orphanMitigationInProgress {
          toUpdate.SetReady(ConditionFalse, OrphanMitigated, inputs.t1);
        } else {
          toUpdate.SetReady(ConditionFalse, Unbound, inputs.t1);
          toUpdate.ClearFinalizer();
        }
        toUpdate.externalProperties := None;
        toUpdate.ClearCurrentOperation();
        Finish(toUpdate);
    }
  }
}
