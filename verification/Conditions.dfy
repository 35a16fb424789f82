/**
  Condition lists of instances and credentials, and the setter that both use. The setter works on a
  list; what it means is an update of a map from condition type to condition.
 */
module Conditions {
  import opened Common

  /** Condition types; the controller sets two of them, but the type is an open string. */
  datatype Kind = ReadyCondition | FailedCondition | OtherCondition(name: Name)

  /** Why a condition was set; message texts are not kept. */
  datatype Reason =
    | DeprovisionBlocked | NoSuchClass | NoSuchPlan | NoSuchBroker | NoSuchNamespace | BadParameters
    | ProvisionInFlight | DeprovisionInFlight | Provisioning | Deprovisioning
    | ProvisionFailed | ProvisionUnreachable | DeprovisionFailed | RetryTimeout
    | Provisioned | Deprovisioned
    | NoSuchInstance | AsyncOperation | NotBindable | InstanceNotReady
    | BindInFlight | UnbindInFlight | BindFailed | InjectFailed | EjectFailed | UnbindFailed
    | OrphanMitigation | OrphanMitigated | Injected | Unbound

  datatype Condition = Condition(kind: Kind, status: ConditionStatus, reason: Reason, since: Time)

  /** The first condition of a type. */
  function Find(cs: seq<Condition>, kind: Kind): Option<Condition> {
    if cs == [] then None
    else if cs[0].kind == kind then Some(cs[0])
    else Find(cs[1..], kind)
  }

  ghost predicate Unique(cs: seq<Condition>) {
    forall i, j :: 0 <= i < j < |cs| ==> cs[i].kind != cs[j].kind
  }

  lemma {:induction false} FindMeansMember(cs: seq<Condition>, kind: Kind)
    ensures Find(cs, kind).None? ==> forall c :: c in cs ==> c.kind != kind
    ensures Find(cs, kind).Some? ==> Find(cs, kind).value in cs && Find(cs, kind).value.kind == kind
  {
    if cs != [] {
      FindMeansMember(cs[1..], kind);
      assert cs == [cs[0]] + cs[1..];
    }
  }

  lemma {:induction false} FindAt(cs: seq<Condition>, i: nat)
    requires i < |cs| && forall j :: 0 <= j < i ==> cs[j].kind != cs[i].kind
    ensures Find(cs, cs[i].kind) == Some(cs[i])
  {
    if i > 0 {
      FindAt(cs[1..], i - 1);
    }
  }

  lemma {:induction false} FindInUpdate(cs: seq<Condition>, i: nat, c: Condition, kind: Kind)
    requires i < |cs| && c.kind == cs[i].kind && forall j :: 0 <= j < i ==> cs[j].kind != c.kind
    ensures Find(cs[i := c], kind) == if kind == c.kind then Some(c) else Find(cs, kind)
  {
    if i > 0 {
      assert cs[i := c][1..] == cs[1..][i - 1 := c];
      FindInUpdate(cs[1..], i - 1, c, kind);
    }
  }

  lemma {:induction false} FindInAppend(cs: seq<Condition>, c: Condition, kind: Kind)
    ensures Find(cs + [c], kind) ==
            if Find(cs, kind).Some? then Find(cs, kind) else if kind == c.kind then Some(c) else None
  {
    if cs == [] {
      assert (cs + [c])[1..] == [];
    } else {
      assert (cs + [c])[1..] == cs[1..] + [c];
      FindInAppend(cs[1..], c, kind);
    }
  }

  /** A request to set a condition at a time. */
  datatype Setting = Setting(kind: Kind, status: ConditionStatus, reason: Reason, at: Time)

  /** The condition that results: its time is kept unless it is new or its status changes. */
  function Updated(before: Option<Condition>, s: Setting): Condition {
    Condition(s.kind, s.status, s.reason,
              if before.Some? && before.value.status == s.status then before.value.since else s.at)
  }

  /** `r` is `cs` with one entry of the map replaced and no other touched, and lists the types in the same order. */
  ghost predicate MapUpdate(cs: seq<Condition>, s: Setting, r: seq<Condition>) {
    && (Unique(cs) ==> Unique(r))
    && (forall kind :: Find(r, kind) == if kind == s.kind then Some(Updated(Find(cs, kind), s)) else Find(cs, kind))
    && |cs| <= |r| <= |cs| + 1
    && (forall i :: 0 <= i < |cs| && cs[i].kind != s.kind ==> r[i] == cs[i])
    && (forall i :: 0 <= i < |cs| ==> r[i].kind == cs[i].kind)
  }

  /** The setter of setServiceInstanceConditionInternal and its credential twin. */
  method SetCondition(cs: seq<Condition>, s: Setting) returns (r: seq<Condition>)
    ensures MapUpdate(cs, s, r)
  {
    if |cs| == 0 {
      return [Condition(s.kind, s.status, s.reason, s.at)];
    }
    for i := 0 to |cs|
      invariant forall j :: 0 <= j < i ==> cs[j].kind != s.kind
    {
      if cs[i].kind == s.kind {
        var since := if cs[i].status != s.status then s.at else cs[i].since;
        var c := Condition(s.kind, s.status, s.reason, since);
        FindAt(cs, i);
        forall kind { FindInUpdate(cs, i, c, kind); }
        return cs[i := c];
      }
    }
    var c := Condition(s.kind, s.status, s.reason, s.at);
    FindMeansMember(cs, s.kind);
    forall kind { FindInAppend(cs, c, kind); }
    return cs + [c];
  }

  // ---------- What the state machines keep of a list ----------

  function Summary(cs: seq<Condition>, kind: Kind): Option<Cond> {
    match Find(cs, kind)
    case None => None
    case Some(c) => Some(Cond(c.status, c.since))
  }

  /** The setter, seen through the summary, is SetCond on one type and the identity on the other. */
  lemma SetSummary(cs: seq<Condition>, s: Setting, r: seq<Condition>)
    requires MapUpdate(cs, s, r)
    ensures Summary(r, s.kind) == SetCond(Summary(cs, s.kind), s.status, s.at)
    ensures forall kind :: kind != s.kind ==> Summary(r, kind) == Summary(cs, kind)
  {
  }

  /** Some condition of the type is true. */
  ghost predicate SomeTrue(cs: seq<Condition>, kind: Kind) {
    exists i :: 0 <= i < |cs| && cs[i].kind == kind && cs[i].status == ConditionTrue
  }

  /** With unique types, some condition of the type is true exactly if the first is; in any list, if the first is. */
  lemma SomeTrueIsSummary(cs: seq<Condition>, kind: Kind)
    ensures Is(Summary(cs, kind), ConditionTrue) ==> SomeTrue(cs, kind)
    ensures Unique(cs) ==> (SomeTrue(cs, kind) <==> Is(Summary(cs, kind), ConditionTrue))
  {
    FindMeansMember(cs, kind);
    if Unique(cs) && SomeTrue(cs, kind) {
      var i :| 0 <= i < |cs| && cs[i].kind == kind && cs[i].status == ConditionTrue;
      FindAt(cs, i);
    }
  }

  /** isServiceInstanceFailed and isServiceInstanceCredentialFailed, on any list. */
  method AnyFailed(cs: seq<Condition>) returns (failed: bool)
    ensures failed <==> SomeTrue(cs, FailedCondition)
  {
    for i := 0 to |cs|
      invariant forall j :: 0 <= j < i ==> !(cs[j].kind == FailedCondition && cs[j].status == ConditionTrue)
    {
      if cs[i].kind == FailedCondition && cs[i].status == ConditionTrue {
        return true;
      }
    }
    return false;
  }

  /** isServiceInstanceReady: the first ready condition is true. */
  method FirstReady(cs: seq<Condition>) returns (ready: bool)
    ensures ready <==> Is(Summary(cs, ReadyCondition), ConditionTrue)
  {
    for i := 0 to |cs|
      invariant forall j :: 0 <= j < i ==> cs[j].kind != ReadyCondition
    {
      if cs[i].kind == ReadyCondition {
        FindAt(cs, i);
        return cs[i].status == ConditionTrue;
      }
    }
    FindMeansMember(cs, ReadyCondition);
    return false;
  }

  // ---------- Sequences of settings ----------

  /** `r` results from `cs` by these settings, one after another. */
  ghost predicate Sets(cs: seq<Condition>, ss: seq<Setting>, r: seq<Condition>)
    decreases |ss|
  {
    if ss == [] then r == cs
    else exists m :: Sets(cs, ss[..|ss| - 1], m) && MapUpdate(m, Last(ss), r)
  }

  /** The status a type has after these settings: that of the last one of that type, or what it was. */
  function StatusAfter(initial: Option<Condition>, ss: seq<Setting>, kind: Kind): Option<ConditionStatus>
    decreases |ss|
  {
    if ss == [] then (if initial.Some? then Some(initial.value.status) else None)
    else if Last(ss).kind == kind then Some(Last(ss).status)
    else StatusAfter(initial, ss[..|ss| - 1], kind)
  }

  /** Setting `j` added the condition or changed its status, and no later one did. */
  ghost predicate LatestChange(initial: Option<Condition>, ss: seq<Setting>, kind: Kind, j: nat) {
    && j < |ss| && ss[j].kind == kind
    && StatusAfter(initial, ss[..j], kind) != Some(ss[j].status)
    && forall k :: j < k < |ss| && ss[k].kind == kind ==> ss[k].status == ss[j].status
  }

  /** No setting added the condition or changed its status. */
  ghost predicate NeverChanged(initial: Option<Condition>, ss: seq<Setting>, kind: Kind) {
    forall k :: 0 <= k < |ss| && ss[k].kind == kind ==> initial.Some? && ss[k].status == initial.value.status
  }

  /**
    Over any sequence of settings, the transition time of a condition is the time of the latest
    setting that added it or changed its status, and unique types stay unique.
   */
  lemma {:induction false} TransitionTimeIsLatestChange(cs: seq<Condition>, ss: seq<Setting>, r: seq<Condition>, kind: Kind)
    requires Sets(cs, ss, r)
    ensures Unique(cs) ==> Unique(r)
    ensures var c := Find(r, kind);
      if NeverChanged(Find(cs, kind), ss, kind) then
        c.Some? == Find(cs, kind).Some? && (c.Some? ==> c.value.since == Find(cs, kind).value.since &&
                                                        c.value.status == Find(cs, kind).value.status)
      else
        c.Some? && StatusAfter(Find(cs, kind), ss, kind) == Some(c.value.status) &&
        exists j: nat :: LatestChange(Find(cs, kind), ss, kind, j) && c.value.since == ss[j].at
    decreases |ss|
  {
    if ss != [] {
      var prefix, s := ss[..|ss| - 1], Last(ss);
      var m :| Sets(cs, prefix, m) && MapUpdate(m, s, r);
      TransitionTimeIsLatestChange(cs, prefix, m, kind);
      ExtendSettings(Find(cs, kind), prefix, s, kind, Find(m, kind), Find(r, kind));
      assert ss == prefix + [s];
    }
  }

  /** One more setting, for one type. */
  lemma ExtendSettings(initial: Option<Condition>, prefix: seq<Setting>, s: Setting, kind: Kind,
                       m: Option<Condition>, c: Option<Condition>)
    requires c == if kind == s.kind then Some(Updated(m, s)) else m
    requires if NeverChanged(initial, prefix, kind) then
               m.Some? == initial.Some? && (m.Some? ==> m.value.since == initial.value.since &&
                                                        m.value.status == initial.value.status)
             else
               m.Some? && StatusAfter(initial, prefix, kind) == Some(m.value.status) &&
               exists j: nat :: LatestChange(initial, prefix, kind, j) && m.value.since == prefix[j].at
    ensures var ss := prefix + [s];
      if NeverChanged(initial, ss, kind) then
        c.Some? == initial.Some? && (c.Some? ==> c.value.since == initial.value.since &&
                                                 c.value.status == initial.value.status)
      else
        c.Some? && StatusAfter(initial, ss, kind) == Some(c.value.status) &&
        exists j: nat :: LatestChange(initial, ss, kind, j) && c.value.since == ss[j].at
  {
    var ss := prefix + [s];
    assert ss[..|ss| - 1] == prefix;
    assert forall k :: 0 <= k < |prefix| ==> ss[k] == prefix[k];
    assert ss[|prefix|] == s;
    assert ss[..|prefix|] == prefix;
    StatusUnlessChanged(initial, prefix, kind);
    if NeverChanged(initial, prefix, kind) {
      if s.kind == kind && (initial.None? || initial.value.status != s.status) {
        assert LatestChange(initial, ss, kind, |prefix|);
      }
    } else {
      var j: nat :| LatestChange(initial, prefix, kind, j) && m.value.since == prefix[j].at;
      assert ss[..j] == prefix[..j];
      LatestStatus(initial, prefix, kind, j);
      if s.kind == kind && m.value.status != s.status {
        assert LatestChange(initial, ss, kind, |prefix|);
      } else {
        assert LatestChange(initial, ss, kind, j);
      }
    }
  }

  lemma {:induction false} StatusUnlessChanged(initial: Option<Condition>, ss: seq<Setting>, kind: Kind)
    ensures NeverChanged(initial, ss, kind) ==>
      StatusAfter(initial, ss, kind) == if initial.Some? then Some(initial.value.status) else None
    decreases |ss|
  {
    if ss != [] {
      StatusUnlessChanged(initial, ss[..|ss| - 1], kind);
    }
  }

  lemma {:induction false} LatestStatus(initial: Option<Condition>, ss: seq<Setting>, kind: Kind, j: nat)
    requires LatestChange(initial, ss, kind, j)
    ensures StatusAfter(initial, ss, kind) == Some(ss[j].status)
    decreases |ss|
  {
    var prefix := ss[..|ss| - 1];
    if j < |prefix| && Last(ss).kind != kind {
      assert prefix[..j] == ss[..j];
      LatestStatus(initial, prefix, kind, j);
    }
  }
}
