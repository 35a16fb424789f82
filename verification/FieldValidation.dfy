/** The checks that instances and credentials share. */
module FieldValidation {
  import opened Common
  import opened Conditions

  /** The fields an error can be about. */
  datatype FieldError =
    | CurrentOperationError | StartTimeError | AsyncError | LastOperationError | ConditionError(index: nat)
    | InProgressError | ParametersError | ChecksumError | ReconciledGenerationError

  /** validateServiceInstancePropertiesState and its credential twin */
  method ValidateProperties(p: Properties) returns (errs: seq<FieldError>)
    ensures errs == [] <==> WellFormed(p)
  {
    errs := [];
    if p.parameters.None? {
      if p.checksum != "" {
        errs := errs + [ChecksumError];
      }
    } else {
      if |p.parameters.value.text| == 0 {
        errs := errs + [ParametersError];
      } else if !p.parameters.value.parses {
        errs := errs + [ParametersError];
      }
      if p.checksum == "" {
        errs := errs + [ChecksumError];
      }
    }
    if p.checksum != "" {
      if |p.checksum| != 64 {
        errs := errs + [ChecksumError];
      }
      var hex := IsHexadecimal(p.checksum);
      if !hex {
        errs := errs + [ChecksumError];
      }
    }
  }

  method IsHexadecimal(s: string) returns (hex: bool)
    ensures hex <==> forall i :: 0 <= i < |s| ==> IsHexDigit(s[i])
  {
    for i := 0 to |s|
      invariant forall j :: 0 <= j < i ==> IsHexDigit(s[j])
    {
      if !IsHexDigit(s[i]) {
        return false;
      }
    }
    return true;
  }

  /** The loop that forbids a ready condition while an operation is going on. */
  method ReadyErrors(cs: seq<Condition>) returns (errs: seq<FieldError>)
    ensures errs == [] <==> !SomeTrue(cs, ReadyCondition)
  {
    errs := [];
    for i := 0 to |cs|
      invariant errs == [] <==> forall j :: 0 <= j < i ==> !(cs[j].kind == ReadyCondition && cs[j].status == ConditionTrue)
    {
      if cs[i].kind == ReadyCondition && cs[i].status == ConditionTrue {
        errs := errs + [ConditionError(i)];
      }
    }
  }
}
