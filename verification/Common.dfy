/** Types shared by every part of the model. */
module Common {

  datatype Option<+T> = None | Some(value: T)

  /** Points in time and durations, in whatever unit the clock ticks. */
  type Time = nat

  /** Object names, external identifiers and operation keys. */
  type Name = string

  /** The value of a condition (v1alpha1 ConditionStatus). */
  datatype ConditionStatus = ConditionTrue | ConditionFalse | ConditionUnknown

  /** What the state machines need of a condition: its status and the time of its last change. */
  datatype Cond = Cond(status: ConditionStatus, since: Time)

  /** A condition with the given status is present. */
  predicate Is(c: Option<Cond>, status: ConditionStatus) {
    c.Some? && c.value.status == status
  }

  /** Setting a condition keeps the transition time unless the status changes. */
  function SetCond(c: Option<Cond>, status: ConditionStatus, t: Time): (r: Option<Cond>)
    ensures Is(r, status)
  {
    Some(Cond(status, if Is(c, status) then c.value.since else t))
  }

  /** The recorded properties of a request: the plan, the redacted parameters and their checksum. */
  datatype Properties = Properties(plan: Name, parameters: Option<RawParameters>, checksum: string)

  /** A serialized parameter document and whether it parses as YAML. */
  datatype RawParameters = RawParameters(text: string, parses: bool)

  predicate IsHexDigit(c: char) {
    '0' <= c <= '9' || 'a' <= c <= 'f' || 'A' <= c <= 'F'
  }

  /** The shape every checksum and every marshalled document has: 64 hexadecimal digits, non-empty text. */
  ghost predicate WellFormed(p: Properties) {
    match p.parameters
    case None => p.checksum == ""
    case Some(raw) =>
      && raw.text != "" && raw.parses
      && |p.checksum| == 64
      && forall i :: 0 <= i < 64 ==> IsHexDigit(p.checksum[i])
  }

  ghost predicate WellFormedOption(p: Option<Properties>) {
    p.Some? ==> WellFormed(p.value)
  }

  /** The last element of a non-empty sequence. */
  function Last<T>(s: seq<T>): T
    requires s != []
  {
    s[|s| - 1]
  }
}
