/** The ServiceInstanceCredential object the controller copies and changes in place. */
module CredentialObject {
  import opened Common
  import opened Conditions
  import Credentials
  import opened InstanceObject

  class ServiceInstanceCredential {
    const uid: nat
    const secretName: Name
    var generation: nat
    var deletionTimestamp: Option<Time>
    var finalizers: set<Finalizer>
    var conditions: seq<Condition>
    var currentOperation: Credentials.Operation
    var operationStartTime: Option<Time>
    var orphanMitigationInProgress: bool
    var inProgressProperties: Option<Properties>
    var externalProperties: Option<Properties>
    var reconciledGeneration: nat

    ghost predicate Valid()
      reads this
    {
      Unique(conditions)
    }

    /** The version this object stands for. */
    function Value(): Credentials.Credential
      reads this
    {
      Credentials.Credential(
        generation, deletionTimestamp.Some?, ServiceCatalog in finalizers,
        Summary(conditions, ReadyCondition), Summary(conditions, FailedCondition),
        currentOperation, operationStartTime, orphanMitigationInProgress,
        inProgressProperties, externalProperties, reconciledGeneration)
    }

    /** makeServiceInstanceCredentialClone */
    constructor Copy(from: ServiceInstanceCredential)
      requires from.Valid()
      ensures Valid() && Value() == from.Value() && uid == from.uid && secretName == from.secretName
    {
      uid := from.uid;
      secretName := from.secretName;
      generation := from.generation;
      deletionTimestamp := from.deletionTimestamp;
      finalizers := from.finalizers;
      conditions := from.conditions;
      currentOperation := from.currentOperation;
      operationStartTime := from.operationStartTime;
      orphanMitigationInProgress := from.orphanMitigationInProgress;
      inProgressProperties := from.inProgressProperties;
      externalProperties := from.externalProperties;
      reconciledGeneration := from.reconciledGeneration;
    }

    method SetReady(status: ConditionStatus, reason: Reason, t: Time)
      requires Valid()
      modifies this`conditions
      ensures Valid() && Value() == Credentials.SetReady(old(Value()), status, t)
    {
      var s := Setting(ReadyCondition, status, reason, t);
      var cs := SetCondition(conditions, s);
      SetSummary(conditions, s, cs);
      conditions := cs;
    }

    method SetFailed(reason: Reason, t: Time)
      requires Valid()
      modifies this`conditions
      ensures Valid() && Value() == Credentials.SetFailed(old(Value()), t)
    {
      var s := Setting(FailedCondition, ConditionTrue, reason, t);
      var cs := SetCondition(conditions, s);
      SetSummary(conditions, s, cs);
      conditions := cs;
    }

    /** recordStartOfServiceInstanceCredentialOperation, up to the status update. */
    method RecordStart(operation: Credentials.Operation, t: Time)
      requires Valid()
      modifies this
      ensures Valid() && Value() == Credentials.RecordStart(old(Value()), operation, t)
    {
      currentOperation := operation;
      operationStartTime := Some(t);
      SetReady(ConditionFalse, if operation == Credentials.Bind then BindInFlight else UnbindInFlight, t);
    }

    method ClearCurrentOperation()
      modifies this
      ensures Value() == Credentials.ClearOperation(old(Value())) && conditions == old(conditions)
    {
      currentOperation := Credentials.NoOperation;
      operationStartTime := None;
      reconciledGeneration := generation;
      inProgressProperties := None;
      orphanMitigationInProgress := false;
    }

    /** setAndUpdateOrphanMitigation, up to the status update. */
    method StartOrphanMitigation(t: Time)
      requires Valid()
      modifies this
      ensures Valid() && Value() == Credentials.StartOrphanMitigation(old(Value()), t)
    {
      orphanMitigationInProgress := true;
      operationStartTime := None;
      inProgressProperties := None;
      SetReady(ConditionFalse, OrphanMitigation, t);
    }

    method ClearFinalizer()
      modifies this`finalizers
      ensures Value() == old(Value()).(finalizer := false)
    {
      finalizers := finalizers - {ServiceCatalog};
    }

    // ---------- The server's preparation of a submitted object ----------

    method PrepareForCreate()
      modifies this
      ensures Valid() && Value() == Credentials.CREATED
    {
      deletionTimestamp := None;
      currentOperation := Credentials.NoOperation;
      operationStartTime := None;
      orphanMitigationInProgress := false;
      inProgressProperties := None;
      externalProperties := None;
      reconciledGeneration := 0;
      conditions := [];
      finalizers := {ServiceCatalog};
      generation := 1;
    }

    method PrepareForUpdate(stored: ServiceInstanceCredential)
      requires stored != this
      modifies this
      ensures Value() == Credentials.PrepareForUpdate(old(Value()), stored.Value())
    {
      generation := stored.generation;
      deletionTimestamp := stored.deletionTimestamp;
      conditions := stored.conditions;
      currentOperation := stored.currentOperation;
      operationStartTime := stored.operationStartTime;
      orphanMitigationInProgress := stored.orphanMitigationInProgress;
      inProgressProperties := stored.inProgressProperties;
      externalProperties := stored.externalProperties;
      reconciledGeneration := stored.reconciledGeneration;
    }

    method PrepareForStatusUpdate(stored: ServiceInstanceCredential)
      requires stored != this
      modifies this
      ensures Value() == Credentials.PrepareForStatusUpdate(old(Value()), stored.Value())
    {
      generation := stored.generation;
      deletionTimestamp := stored.deletionTimestamp;
    }
  }
}
