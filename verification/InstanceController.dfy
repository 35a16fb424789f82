/**
  The instance control loop in its own form: it copies the instance it is given, changes the copy
  step by step and submits it. What a pass does is exactly the trace that Instances.Reconcile gives.
 */
module InstanceController {
  import opened Common
  import opened Conditions
  import opened Instances
  import opened InstanceObject

  class Controller {
    const inputs: Inputs     // what this pass observes
    const retry: Time        // reconciliationRetryDuration
    var trace: Trace         // what it has done so far

    constructor (inputs: Inputs, retry: Time)
      ensures this.inputs == inputs && this.retry == retry && trace == IDLE
    {
      this.inputs := inputs;
      this.retry := retry;
      trace := IDLE;
    }

    // ---------- Writes ----------

    /** updateServiceInstanceReferences */
    method UpdateReferences(toUpdate: ServiceInstance) returns (err: bool)
      modifies this
      ensures trace == old(trace).(references := Some(toUpdate.Value())) && err == !inputs.okReferences
    {
      trace := trace.(references := Some(toUpdate.Value()));
      err := !inputs.okReferences;
    }

    /** updateServiceInstanceStatus, as the last write of a pass */
    method UpdateStatus(toUpdate: ServiceInstance) returns (err: bool)
      modifies this
      ensures trace == old(trace).(final := Some(toUpdate.Value())) && err == !inputs.okFinal
    {
      trace := trace.(final := Some(toUpdate.Value()));
      err := !inputs.okFinal;
    }

    /** recordStartOfServiceInstanceOperation */
    method RecordStartOfOperation(toUpdate: ServiceInstance, operation: Operation) returns (err: bool)
      requires toUpdate.Valid()
      modifies this, toUpdate
      ensures toUpdate.Valid() && toUpdate.Value() == RecordStart(old(toUpdate.Value()), operation, inputs.t0)
      ensures trace == old(trace).(intent := Some(toUpdate.Value())) && err == !inputs.okIntent
      ensures toUpdate.finalizers == old(toUpdate.finalizers)
    {
      toUpdate.RecordStart(operation, inputs.t0);
      trace := trace.(intent := Some(toUpdate.Value()));
      err := !inputs.okIntent;
    }

    /** A status update whose failure or success decides the pass; on success the polling queue is told. */
    method Finish(toUpdate: ServiceInstance, polling: Polling)
      requires trace.polling == LeavePolling && !trace.failed
      modifies this
      ensures trace == End(old(trace), toUpdate.Value(), inputs.okFinal, polling)
    {
      var err := UpdateStatus(toUpdate);
      if err {
        trace := trace.(failed := true);
        return;
      }
      trace := trace.(polling := polling);
    }

    /** A status update on the way out with an error. */
    method FinishFailing(toUpdate: ServiceInstance)
      modifies this
      ensures trace == EndFailing(old(trace), toUpdate.Value())
    {
      var _ := UpdateStatus(toUpdate);
      trace := trace.(failed := true);
    }

    method Fail()
      modifies this
      ensures trace == Stop(old(trace))
    {
      trace := trace.(failed := true);
    }

    method Panic()
      modifies this
      ensures trace == Crash(old(trace))
    {
      trace := trace.(failed := true, crashed := true);
    }

    /** getServiceClassPlanAndClusterServiceBroker: a missing object is reported in a condition. */
    method GetClassPlanAndBroker(instance: ServiceInstance) returns (ok: bool)
      requires instance.Valid()
      modifies this
      ensures ok <==> !LookupCrashes(instance.Value(), inputs.lookup) && inputs.lookup.Found?
      ensures ok ==> trace == old(trace)
      ensures !ok ==>
        trace == if LookupCrashes(instance.Value(), inputs.lookup) then Crash(old(trace))
                 else if inputs.lookup.NoClient? then Stop(old(trace))
                 else EndFailing(old(trace), SetReady(instance.Value(), ConditionFalse, inputs.t0))
    {
      if instance.serviceClassRef.None? {
        Panic();
        return false;
      }
      if inputs.lookup.ClassAbsent? {
        ReportMissing(instance, NoSuchClass);
        return false;
      }
      if instance.servicePlanRef.None? {
        Panic();
        return false;
      }
      if inputs.lookup.PlanOrBrokerAbsent? {
        ReportMissing(instance, NoSuchPlan);
        return false;
      }
      if inputs.lookup.NoClient? {
        Fail();
        return false;
      }
      return true;
    }

    method ReportMissing(instance: ServiceInstance, reason: Reason)
      requires instance.Valid()
      modifies this
      ensures trace == EndFailing(old(trace), SetReady(instance.Value(), ConditionFalse, inputs.t0))
    {
      var toUpdate := new ServiceInstance.Copy(instance);
      toUpdate.SetReady(ConditionFalse, reason, inputs.t0);
      FinishFailing(toUpdate);
    }

    // ---------- reconcileServiceInstance ----------

    method ReconcileServiceInstance(instance: ServiceInstance)
      requires instance.Valid() && trace == IDLE
      modifies this
      ensures trace == Reconcile(instance.Value(), inputs, retry)
    {
      if instance.asyncOpInProgress {
        PollServiceInstance(instance);
        return;
      }
      if instance.deletionTimestamp.Some? || instance.orphanMitigationInProgress {
        ReconcileServiceInstanceDelete(instance);
        return;
      }
      var failed := AnyFailed(instance.conditions);
      SomeTrueIsSummary(instance.conditions, FailedCondition);
      if failed {
        return;
      }
      if instance.reconciledGeneration == instance.generation {
        return;
      }
      var toUpdate := new ServiceInstance.Copy(instance);
      var ok := ResolveReferences(toUpdate);
      if ok {
        Provision(toUpdate);
      }
    }

    /** resolveReferences */
    method ResolveReferences(instance: ServiceInstance) returns (ok: bool)
      requires instance.Valid() && trace == IDLE
      modifies this, instance
      ensures instance.Valid()
      ensures ok ==> ReconcileProvision(old(instance.Value()), inputs, retry) ==
                     PrepareProvision(trace, instance.Value(), inputs, retry)
      ensures ok ==> trace.intent.None? && trace.final.None? && !trace.failed && trace.polling == LeavePolling
      ensures !ok ==> trace == ReconcileProvision(old(instance.Value()), inputs, retry)
    {
      if instance.serviceClassRef.Some? && instance.servicePlanRef.Some? {
        return true;
      }
      var looked := false;
      if instance.serviceClassRef.None? {
        if inputs.resolvedClass.None? {
          ReportMissing(instance, NoSuchClass);
          return false;
        }
        instance.serviceClassRef := inputs.resolvedClass;
        looked := true;
      }
      if instance.servicePlanRef.None? {
        if !looked && !inputs.classGetOk {
          Fail();
          return false;
        }
        if inputs.resolvedPlan.None? {
          ReportMissing(instance, NoSuchPlan);
          return false;
        }
        instance.servicePlanRef := inputs.resolvedPlan;
      }
      var err := UpdateReferences(instance);
      if err {
        Fail();
        return false;
      }
      return true;
    }

    /** reconcileServiceInstance, from the look-up to the broker call */
    method Provision(toUpdate: ServiceInstance)
      requires toUpdate.Valid()
      requires trace.intent.None? && trace.final.None? && !trace.failed && trace.polling == LeavePolling
      modifies this, toUpdate
      ensures trace == PrepareProvision(old(trace), old(toUpdate.Value()), inputs, retry)
    {
      var ok := GetClassPlanAndBroker(toUpdate);
      if !ok {
        return;
      }
      if !inputs.namespaceFound {
        toUpdate.SetReady(ConditionFalse, NoSuchNamespace, inputs.t0);
        FinishFailing(toUpdate);
        return;
      }
      if inputs.properties.None? {
        toUpdate.SetReady(ConditionFalse, BadParameters, inputs.t0);
        FinishFailing(toUpdate);
        return;
      }
      toUpdate.inProgressProperties := inputs.properties;
      if toUpdate.currentOperation == NoOperation {
        var err := RecordStartOfOperation(toUpdate, Operation.Provision);
        if err {
          Fail();
          return;
        }
      }
      CallProvision(toUpdate);
    }

    /** reconcileServiceInstance, from the broker call on */
    method CallProvision(toUpdate: ServiceInstance)
      requires toUpdate.Valid() && inputs.properties.Some?
      requires trace.final.None? && !trace.failed && trace.polling == LeavePolling
      modifies this, toUpdate
      ensures trace == SendProvision(old(trace), old(toUpdate.Value()), inputs, retry)
    {
      trace := trace.(call := Call.CallProvision(inputs.properties.value));
      match inputs.provision
      case ProvisionHttpError(code) =>
        toUpdate.SetFailed(ProvisionFailed, inputs.t1);
        toUpdate.SetReady(ConditionFalse, ProvisionFailed, inputs.t1);
        if ShouldStartOrphanMitigation(code) {
          toUpdate.StartOrphanMitigation();
          FinishFailing(toUpdate);
          return;
        }
        toUpdate.ClearCurrentOperation();
        Finish(toUpdate, LeavePolling);
      case ProvisionTimeout =>
        toUpdate.SetReady(ConditionFalse, ProvisionUnreachable, inputs.t1);
        toUpdate.SetFailed(ProvisionUnreachable, inputs.t1);
        toUpdate.StartOrphanMitigation();
        FinishFailing(toUpdate);
      case ProvisionError =>
        toUpdate.SetReady(ConditionFalse, ProvisionUnreachable, inputs.t1);
        if toUpdate.operationStartTime.None? {
          Panic();
          return;
        }
        if Expired(toUpdate.operationStartTime.value, retry, inputs.t1) {
          toUpdate.SetFailed(RetryTimeout, inputs.t1);
          toUpdate.ClearCurrentOperation();
          Finish(toUpdate, LeavePolling);
          return;
        }
        FinishFailing(toUpdate);
      case ProvisionAccepted(key) =>
        toUpdate.RememberKey(key);
        toUpdate.asyncOpInProgress := true;
        toUpdate.SetReady(ConditionFalse, Provisioning, inputs.t1);
        Finish(toUpdate, KeepPolling);
      case ProvisionDone =>
        toUpdate.externalProperties := toUpdate.inProgressProperties;
        toUpdate.ClearCurrentOperation();
        toUpdate.SetReady(ConditionTrue, Provisioned, inputs.t1);
        Finish(toUpdate, LeavePolling);
    }

    // ---------- reconcileServiceInstanceDelete ----------

    method ReconcileServiceInstanceDelete(instance: ServiceInstance)
      requires instance.Valid() && trace == IDLE
      modifies this
      ensures trace == ReconcileDelete(instance.Value(), inputs, retry)
    {
      hide SendDeprovision, SetCond;
      if instance.deletionTimestamp.None? && !instance.orphanMitigationInProgress {
        return;
      }
      if inputs.credentials.ListingFailed? {
        Fail();
        return;
      }
      if inputs.credentials.SomeCredentials? {
        var toUpdate := new ServiceInstance.Copy(instance);
        toUpdate.SetReady(ConditionFalse, DeprovisionBlocked, inputs.t0);
        Finish(toUpdate, LeavePolling);
        return;
      }
      if ServiceCatalog !in instance.finalizers {
        return;
      }
      var failed := AnyFailed(instance.conditions);
      SomeTrueIsSummary(instance.conditions, FailedCondition);
      if !instance.asyncOpInProgress && !instance.orphanMitigationInProgress &&
         (failed || instance.reconciledGeneration == 0) {
        var toUpdate := new ServiceInstance.Copy(instance);
        toUpdate.ClearFinalizer();
        Finish(toUpdate, LeavePolling);
        return;
      }
      StartRemoval(instance);
    }

    /** reconcileServiceInstanceDelete, from the look-up to the intent */
    method StartRemoval(instance: ServiceInstance)
      requires instance.Valid() && trace == IDLE && inputs.credentials.NoCredentials? && ServiceCatalog in instance.finalizers
      requires instance.deletionTimestamp.Some? || instance.orphanMitigationInProgress
      requires var s := instance.Value(); s.async || s.orphan || (!IsFailed(s) && s.reconciled != 0)
      modifies this
      ensures trace == ReconcileDelete(instance.Value(), inputs, retry)
    {
      hide SendDeprovision, SetCond;
      var ok := GetClassPlanAndBroker(instance);
      if !ok {
        return;
      }
      var toUpdate := new ServiceInstance.Copy(instance);
      if instance.orphanMitigationInProgress && instance.operationStartTime.None? {
        toUpdate.operationStartTime := Some(inputs.t0);
      }
      if toUpdate.currentOperation == NoOperation {
        var err := RecordStartOfOperation(toUpdate, Operation.Deprovision);
        if err {
          Fail();
          return;
        }
      }
      CallDeprovision(instance, toUpdate);
    }

    /** reconcileServiceInstanceDelete, from the broker call on */
    method CallDeprovision(instance: ServiceInstance, toUpdate: ServiceInstance)
      requires toUpdate.Valid() && instance != toUpdate
      requires trace.final.None? && !trace.failed && trace.polling == LeavePolling
      modifies this, toUpdate
      ensures trace == SendDeprovision(old(trace), instance.Value(), old(toUpdate.Value()), inputs, retry)
    {
      hide SetCond, Summary, Unique;
      trace := trace.(call := Call.CallDeprovision);
      match inputs.deprovision
      case DeprovisionHttpError(_) =>
        toUpdate.SetReady(ConditionUnknown, DeprovisionFailed, inputs.t1);
        if !instance.orphanMitigationInProgress {
          toUpdate.SetFailed(DeprovisionFailed, inputs.t1);
        }
        toUpdate.ClearCurrentOperation();
        Finish(toUpdate, LeavePolling);
      case DeprovisionError =>
        toUpdate.SetReady(ConditionUnknown, DeprovisionFailed, inputs.t1);
        if toUpdate.operationStartTime.None? {
          Panic();
          return;
        }
        if Expired(toUpdate.operationStartTime.value, retry, inputs.t1) {
          if !instance.orphanMitigationInProgress {
            toUpdate.SetFailed(RetryTimeout, inputs.t1);
          }
          toUpdate.ClearCurrentOperation();
          Finish(toUpdate, LeavePolling);
          return;
        }
        FinishFailing(toUpdate);
      case DeprovisionAccepted(key) =>
        toUpdate.RememberKey(key);
        toUpdate.asyncOpInProgress := true;
        toUpdate.SetReady(ConditionFalse, Deprovisioning, inputs.t1);
        Finish(toUpdate, KeepPolling);
      case DeprovisionDone =>
        toUpdate.ClearCurrentOperation();
        toUpdate.externalProperties := None;
        toUpdate.SetReady(ConditionFalse, Deprovisioned, inputs.t1);
        if instance.deletionTimestamp.Some? {
          toUpdate.ClearFinalizer();
        }
        Finish(toUpdate, LeavePolling);
    }

    // ---------- pollServiceInstance ----------

    method PollServiceInstance(instance: ServiceInstance)
      requires instance.Valid() && trace == IDLE
      modifies this
      ensures trace == PollOperation(instance.Value(), inputs, retry)
    {
      var ok := GetClassPlanAndBroker(instance);
      if !ok {
        return;
      }
      if instance.operationStartTime.None? {
        var toUpdate := new ServiceInstance.Copy(instance);
        StopRetrying(instance, toUpdate);
        return;
      }
      PollLastOperation(instance, Expired(instance.operationStartTime.value, retry, inputs.t1));
    }

    /** Too much time has elapsed. */
    method StopRetrying(instance: ServiceInstance, toUpdate: ServiceInstance)
      requires toUpdate.Valid() && instance != toUpdate
      requires !trace.failed && trace.polling == LeavePolling
      modifies this, toUpdate
      ensures trace == GiveUp(old(trace), instance.Value(), old(toUpdate.Value()), inputs)
    {
      var mitigatingOrphan := instance.orphanMitigationInProgress;
      if !mitigatingOrphan {
        toUpdate.SetFailed(RetryTimeout, inputs.t1);
      }
      if instance.currentOperation == Operation.Deprovision || mitigatingOrphan {
        toUpdate.ClearCurrentOperation();
      } else {
        toUpdate.StartOrphanMitigation();
      }
      Finish(toUpdate, FinishPolling);
    }

    method PollLastOperation(instance: ServiceInstance, late: bool)
      requires instance.Valid() && trace == IDLE
      modifies this
      ensures trace == PollBroker(instance.Value(), inputs, late)
    {
      hide GiveUp, SetCond, Summary, Unique;
      trace := trace.(call := CallPoll);
      var mitigatingOrphan := instance.orphanMitigationInProgress;
      var deleting := instance.currentOperation == Operation.Deprovision || mitigatingOrphan;
      var toUpdate := new ServiceInstance.Copy(instance);
      match inputs.poll
      case PollInProgress(described) =>
        ContinueOperation(instance, toUpdate, deleting, described, late);
      case PollSucceeded =>
        toUpdate.externalProperties := toUpdate.inProgressProperties;
        toUpdate.ClearCurrentOperation();
        if deleting {
          FinishRemoval(toUpdate, mitigatingOrphan);
        } else {
          toUpdate.SetReady(ConditionTrue, Provisioned, inputs.t1);
          Finish(toUpdate, FinishPolling);
        }
      case PollFailed =>
        FinishFailedOperation(toUpdate, deleting, mitigatingOrphan);
      case PollInvalid =>
        if late {
          StopRetrying(instance, toUpdate);
        } else {
          Fail();
        }
      case PollGone =>
        if deleting {
          toUpdate.ClearCurrentOperation();
          toUpdate.externalProperties := None;
          FinishRemoval(toUpdate, mitigatingOrphan);
        } else {
          ContinueUnlessLate(instance, toUpdate, late);
        }
      case PollError =>
        ContinueUnlessLate(instance, toUpdate, late);
    }

    method ContinueOperation(instance: ServiceInstance, toUpdate: ServiceInstance, deleting: bool, described: bool, late: bool)
      requires toUpdate.Valid() && instance != toUpdate && toUpdate.Value() == instance.Value()
      requires !trace.failed && trace.polling == LeavePolling
      modifies this, toUpdate
      ensures
        var s := instance.Value();
        var o := if described then SetReady(s.(async := true), ConditionFalse, inputs.t1) else s;
        trace == if late then GiveUp(old(trace), s, o, inputs)
                 else if described then End(old(trace), o, inputs.okFinal, KeepPolling)
                 else old(trace).(polling := KeepPolling)
    {
      if described {
        toUpdate.asyncOpInProgress := true;
        toUpdate.SetReady(ConditionFalse, if deleting then Deprovisioning else Provisioning, inputs.t1);
      }
      if late {
        StopRetrying(instance, toUpdate);
      } else if described {
        Finish(toUpdate, KeepPolling);
      } else {
        trace := trace.(polling := KeepPolling);
      }
    }

    method FinishFailedOperation(toUpdate: ServiceInstance, deleting: bool, mitigatingOrphan: bool)
      requires toUpdate.Valid() && !trace.failed && trace.polling == LeavePolling
      modifies this, toUpdate
      ensures
        var o := SetReady(ClearOperation(old(toUpdate.Value())), if deleting then ConditionUnknown else ConditionFalse, inputs.t1);
        trace == End(old(trace), FailUnlessOrphan(mitigatingOrphan, o, inputs.t1), inputs.okFinal, FinishPolling)
    {
      toUpdate.ClearCurrentOperation();
      var reason := if deleting then DeprovisionFailed else ProvisionFailed;
      toUpdate.SetReady(if deleting then ConditionUnknown else ConditionFalse, reason, inputs.t1);
      if !mitigatingOrphan {
        toUpdate.SetFailed(reason, inputs.t1);
      }
      Finish(toUpdate, FinishPolling);
    }

    /** An error while polling is an invalid response: poll again, unless too much time has elapsed. */
    method ContinueUnlessLate(instance: ServiceInstance, toUpdate: ServiceInstance, late: bool)
      requires toUpdate.Valid() && instance != toUpdate
      requires !trace.failed && trace.polling == LeavePolling
      modifies this, toUpdate
      ensures trace == if late then GiveUp(old(trace), instance.Value(), old(toUpdate.Value()), inputs)
                       else old(trace).(polling := KeepPolling)
    {
      if late {
        StopRetrying(instance, toUpdate);
      } else {
        trace := trace.(polling := KeepPolling);
      }
    }

    method FinishRemoval(toUpdate: ServiceInstance, mitigatingOrphan: bool)
      requires toUpdate.Valid() && !trace.failed && trace.polling == LeavePolling
      modifies this, toUpdate
      ensures
        var o := SetReady(old(toUpdate.Value()), ConditionFalse, inputs.t1);
        trace == End(old(trace), if mitigatingOrphan then o else o.(finalizer := false), inputs.okFinal, FinishPolling)
    {
      toUpdate.SetReady(ConditionFalse, Deprovisioned, inputs.t1);
      if !mitigatingOrphan {
        if ServiceCatalog in toUpdate.finalizers {
          toUpdate.ClearFinalizer();
        }
      }
      Finish(toUpdate, FinishPolling);
    }
  }
}
