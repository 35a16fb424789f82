/** Validation of ServiceInstances: what the API server accepts, and the checks that decide it. */
module InstanceValidation {
  import opened Common
  import opened Conditions
  import opened Instances
  import opened InstanceObject
  import opened FieldValidation

  /** The rules for a status on creation or on an update, given whether a ready condition is true. */
  ghost predicate StatusRules(i: Instance, ready: bool, create: bool) {
    && (if create then i.operation == NoOperation else i.operation != Unsupported)
    && (if i.operation == NoOperation then i.start.None? && !i.async && i.lastOperation.None?
        else i.start.Some? && !ready)
    && (i.operation in {Provision, Update} <==> i.inProgress.Some?)
    && WellFormedOption(i.inProgress) && WellFormedOption(i.external)
  }

  /** A status is accepted. */
  ghost predicate ValidStatus(i: Instance, create: bool) {
    StatusRules(i, IsReady(i), create)
  }

  ghost predicate ValidGeneration(i: Instance, create: bool) {
    if create then i.reconciled < i.generation
    else i.reconciled <= i.generation && (i.reconciled == i.generation ==> i.operation == NoOperation)
  }

  /** An update is accepted. */
  ghost predicate Valid(i: Instance) {
    ValidStatus(i, false) && ValidGeneration(i, false)
  }

  /** validateServiceInstanceStatus */
  method ValidateStatus(o: ServiceInstance, create: bool) returns (errs: seq<FieldError>)
    ensures errs == [] <==> StatusRules(o.Value(), SomeTrue(o.conditions, ReadyCondition), create)
    ensures o.Valid() ==> (errs == [] <==> ValidStatus(o.Value(), create))
  {
    SomeTrueIsSummary(o.conditions, ReadyCondition);
    errs := [];
    if create {
      if o.currentOperation != NoOperation {
        errs := errs + [CurrentOperationError];
      }
    } else if o.currentOperation == Unsupported {
      errs := errs + [CurrentOperationError];
    }
    if o.currentOperation == NoOperation {
      if o.operationStartTime.Some? {
        errs := errs + [StartTimeError];
      }
      if o.asyncOpInProgress {
        errs := errs + [AsyncError];
      }
      if o.lastOperation.Some? {
        errs := errs + [LastOperationError];
      }
    } else {
      if o.operationStartTime.None? {
        errs := errs + [StartTimeError];
      }
      var ready := ReadyErrors(o.conditions);
      errs := errs + ready;
    }
    var more := ValidateAllProperties(o);
    errs := errs + more;
  }

  /** The part of validateServiceInstanceStatus about properties. */
  method ValidateAllProperties(o: ServiceInstance) returns (errs: seq<FieldError>)
    ensures var i := o.Value();
      errs == [] <==>
        && (i.operation in {Provision, Update} <==> i.inProgress.Some?)
        && WellFormedOption(i.inProgress) && WellFormedOption(i.external)
  {
    errs := [];
    if o.currentOperation == Provision || o.currentOperation == Update {
      if o.inProgressProperties.None? {
        errs := errs + [InProgressError];
      }
    } else if o.inProgressProperties.Some? {
      errs := errs + [InProgressError];
    }
    if o.inProgressProperties.Some? {
      var more := ValidateProperties(o.inProgressProperties.value);
      errs := errs + more;
    }
    if o.externalProperties.Some? {
      var more := ValidateProperties(o.externalProperties.value);
      errs := errs + more;
    }
  }

  /** internalValidateServiceInstance: an empty error list means exactly that the object is acceptable. */
  method Validate(o: ServiceInstance, create: bool) returns (errs: seq<FieldError>)
    ensures errs == [] <==>
      StatusRules(o.Value(), SomeTrue(o.conditions, ReadyCondition), create) && ValidGeneration(o.Value(), create)
    ensures o.Valid() ==> (errs == [] <==> ValidStatus(o.Value(), create) && ValidGeneration(o.Value(), create))
  {
    errs := ValidateStatus(o, create);
    if create {
      if o.reconciledGeneration >= o.generation {
        errs := errs + [ReconciledGenerationError];
      }
    } else if o.reconciledGeneration == o.generation {
      if o.currentOperation != NoOperation {
        errs := errs + [CurrentOperationError];
      }
    } else if o.reconciledGeneration > o.generation {
      errs := errs + [ReconciledGenerationError];
    }
  }
}
