/** The ServiceInstance object the controller copies and changes in place. */
module InstanceObject {
  import opened Common
  import opened Conditions
  import Instances

  datatype Finalizer = ServiceCatalog | Foreign(name: Name)

  class ServiceInstance {
    var generation: nat
    var deletionTimestamp: Option<Time>
    var finalizers: set<Finalizer>
    var serviceClassRef: Option<Name>
    var servicePlanRef: Option<Name>
    var conditions: seq<Condition>
    var currentOperation: Instances.Operation
    var operationStartTime: Option<Time>
    var asyncOpInProgress: bool
    var orphanMitigationInProgress: bool
    var lastOperation: Option<Name>
    var inProgressProperties: Option<Properties>
    var externalProperties: Option<Properties>
    var reconciledGeneration: nat

    ghost predicate Valid()
      reads this
    {
      Unique(conditions)
    }

    /** The version this object stands for. */
    function Value(): Instances.Instance
      reads this
    {
      Instances.Instance(
        generation, deletionTimestamp.Some?, ServiceCatalog in finalizers, serviceClassRef, servicePlanRef,
        Summary(conditions, ReadyCondition), Summary(conditions, FailedCondition),
        currentOperation, operationStartTime, asyncOpInProgress, orphanMitigationInProgress, lastOperation,
        inProgressProperties, externalProperties, reconciledGeneration)
    }

    /** A deep copy, as the controller makes before it changes anything. */
    constructor Copy(from: ServiceInstance)
      requires from.Valid()
      ensures Valid() && Value() == from.Value() && finalizers == from.finalizers
    {
      generation := from.generation;
      deletionTimestamp := from.deletionTimestamp;
      finalizers := from.finalizers;
      serviceClassRef := from.serviceClassRef;
      servicePlanRef := from.servicePlanRef;
      conditions := from.conditions;
      currentOperation := from.currentOperation;
      operationStartTime := from.operationStartTime;
      asyncOpInProgress := from.asyncOpInProgress;
      orphanMitigationInProgress := from.orphanMitigationInProgress;
      lastOperation := from.lastOperation;
      inProgressProperties := from.inProgressProperties;
      externalProperties := from.externalProperties;
      reconciledGeneration := from.reconciledGeneration;
    }

    method SetReady(status: ConditionStatus, reason: Reason, t: Time)
      requires Valid()
      modifies this`conditions
      ensures Valid() && Value() == Instances.SetReady(old(Value()), status, t)
    {
      var s := Setting(ReadyCondition, status, reason, t);
      var cs := SetCondition(conditions, s);
      SetSummary(conditions, s, cs);
      conditions := cs;
    }

    method SetFailed(reason: Reason, t: Time)
      requires Valid()
      modifies this`conditions
      ensures Valid() && Value() == Instances.SetFailed(old(Value()), t)
    {
      var s := Setting(FailedCondition, ConditionTrue, reason, t);
      var cs := SetCondition(conditions, s);
      SetSummary(conditions, s, cs);
      conditions := cs;
    }

    /** recordStartOfServiceInstanceOperation, up to the status update. */
    method RecordStart(operation: Instances.Operation, t: Time)
      requires Valid()
      modifies this
      ensures Valid() && Value() == Instances.RecordStart(old(Value()), operation, t)
      ensures finalizers == old(finalizers)
    {
      currentOperation := operation;
      operationStartTime := Some(t);
      SetReady(ConditionFalse, if operation == Instances.Provision then ProvisionInFlight else DeprovisionInFlight, t);
    }

    method ClearCurrentOperation()
      modifies this
      ensures Value() == Instances.ClearOperation(old(Value()))
      ensures finalizers == old(finalizers) && conditions == old(conditions)
    {
      currentOperation := Instances.NoOperation;
      operationStartTime := None;
      asyncOpInProgress := false;
      orphanMitigationInProgress := false;
      lastOperation := None;
      inProgressProperties := None;
      reconciledGeneration := generation;
    }

    method StartOrphanMitigation()
      modifies this
      ensures Value() == Instances.StartOrphanMitigation(old(Value()))
      ensures finalizers == old(finalizers) && conditions == old(conditions)
    {
      operationStartTime := None;
      asyncOpInProgress := false;
      orphanMitigationInProgress := true;
      inProgressProperties := None;
    }

    method RememberKey(key: Option<Name>)
      modifies this`lastOperation
      ensures Value() == Instances.RememberKey(old(Value()), key)
    {
      if key.Some? && key.value != "" {
        lastOperation := key;
      }
    }

    method ClearFinalizer()
      modifies this`finalizers
      ensures Value() == old(Value()).(finalizer := false)
      ensures finalizers == old(finalizers) - {ServiceCatalog}
    {
      finalizers := finalizers - {ServiceCatalog};
    }

    // ---------- The server's preparation of a submitted object ----------

    /** The create strategy: whatever was submitted, the stored object starts afresh. */
    method PrepareForCreate()
      modifies this
      ensures Valid() && Value() == Instances.CREATED
    {
      assert Summary([], ReadyCondition).None? && Summary([], FailedCondition).None?;
      hide Summary;
      deletionTimestamp := None;
      currentOperation := Instances.NoOperation;
      operationStartTime := None;
      asyncOpInProgress := false;
      orphanMitigationInProgress := false;
      lastOperation := None;
      inProgressProperties := None;
      externalProperties := None;
      reconciledGeneration := 0;
      serviceClassRef := None;
      servicePlanRef := None;
      conditions := [];
      finalizers := {ServiceCatalog};
      generation := 1;
    }

    /** The main strategy: users change neither status nor spec nor, therefore, the generation. */
    method PrepareForUpdate(stored: ServiceInstance)
      requires stored != this
      modifies this
      ensures Value() == Instances.PrepareForUpdate(old(Value()), stored.Value())
    {
      generation := stored.generation;
      deletionTimestamp := stored.deletionTimestamp;
      CopyStatus(stored);
      serviceClassRef := stored.serviceClassRef;
      servicePlanRef := stored.servicePlanRef;
    }

    /** The status strategy: the spec stays. */
    method PrepareForStatusUpdate(stored: ServiceInstance)
      requires stored != this
      modifies this
      ensures Value() == Instances.PrepareForStatusUpdate(old(Value()), stored.Value())
    {
      generation := stored.generation;
      deletionTimestamp := stored.deletionTimestamp;
      serviceClassRef := stored.serviceClassRef;
      servicePlanRef := stored.servicePlanRef;
    }

    /** The reference strategy: only the two references are taken over. */
    method PrepareForReferencesUpdate(stored: ServiceInstance)
      requires stored != this
      modifies this
      ensures Value() == Instances.PrepareForReferencesUpdate(old(Value()), stored.Value())
    {
      generation := stored.generation;
      deletionTimestamp := stored.deletionTimestamp;
      var newClassRef, newPlanRef := serviceClassRef, servicePlanRef;
      serviceClassRef := stored.serviceClassRef;
      servicePlanRef := stored.servicePlanRef;
      serviceClassRef := newClassRef;
      servicePlanRef := newPlanRef;
      CopyStatus(stored);
    }

    method CopyStatus(stored: ServiceInstance)
      requires stored != this
      modifies this`conditions, this`currentOperation, this`operationStartTime, this`asyncOpInProgress,
               this`orphanMitigationInProgress, this`lastOperation, this`inProgressProperties,
               this`externalProperties, this`reconciledGeneration
      ensures conditions == stored.conditions
      ensures currentOperation == stored.currentOperation && operationStartTime == stored.operationStartTime
      ensures asyncOpInProgress == stored.asyncOpInProgress
      ensures orphanMitigationInProgress == stored.orphanMitigationInProgress && lastOperation == stored.lastOperation
      ensures inProgressProperties == stored.inProgressProperties && externalProperties == stored.externalProperties
      ensures reconciledGeneration == stored.reconciledGeneration
    {
      conditions := stored.conditions;
      currentOperation := stored.currentOperation;
      operationStartTime := stored.operationStartTime;
      asyncOpInProgress := stored.asyncOpInProgress;
      orphanMitigationInProgress := stored.orphanMitigationInProgress;
      lastOperation := stored.lastOperation;
      inProgressProperties := stored.inProgressProperties;
      externalProperties := stored.externalProperties;
      reconciledGeneration := stored.reconciledGeneration;
    }
  }
}
