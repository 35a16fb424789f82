/**
  What one pass of the instance control loop keeps: every version it submits is consistent
  (Good) and lies further along the instance's life (Later) than the version it replaces.
 */
module InstanceSteps {
  import opened Common
  import opened Instances

  /** Consistency of one stored version. */
  ghost predicate Good(i: Instance) {
    && GoodFrame(i)
    && (i.operation == NoOperation ==> Quiet(i))
    && (i.operation == Provision ==> GoodProvision(i))
    && (i.operation == Deprovision ==> GoodDeprovision(i))
    && (IsReady(i) ==> GoodReady(i))
  }

  ghost predicate GoodFrame(i: Instance) {
    && i.operation in {NoOperation, Provision, Deprovision}
    && 1 <= i.generation && i.reconciled <= i.generation
    && (!i.deleted ==> i.finalizer && (i.reconciled == 0 || i.reconciled == i.generation))
    && (i.operation != NoOperation || i.reconciled > 0 ==> i.classRef.Some? && i.planRef.Some?)
    && (i.classRef.Some? <==> i.planRef.Some?)
    && (i.reconciled == 0 ==> i.external.None?)
    && (IsFailed(i) ==> i.reconciled > 0 || i.orphan)
    && (!i.finalizer ==> !i.async && !i.orphan && i.operation != Deprovision)
    && (!i.finalizer && i.reconciled > 0 && !IsFailed(i) ==> i.external.None?)
    && WellFormedOption(i.inProgress) && WellFormedOption(i.external)
  }

  /** No operation is recorded, so nothing about one is. */
  ghost predicate Quiet(i: Instance) {
    && i.start.None? && !i.async && !i.orphan && i.lastOperation.None? && i.inProgress.None?
    && (i.reconciled > 0 && !IsFailed(i) && i.finalizer ==> i.external.Some?)
  }

  ghost predicate GoodProvision(i: Instance) {
    && i.reconciled == 0 && !IsReady(i)
    && (if i.orphan then IsFailed(i) && i.inProgress.None? && (i.async ==> i.start.Some?)
        else !IsFailed(i) && i.inProgress.Some? && i.start.Some?)
  }

  ghost predicate GoodDeprovision(i: Instance) {
    && i.deleted && i.finalizer && !i.orphan && i.reconciled > 0
    && !IsReady(i) && !IsFailed(i) && i.start.Some? && i.inProgress.None? && i.external.Some?
  }

  ghost predicate GoodReady(i: Instance) {
    i.operation == NoOperation && !IsFailed(i) && i.reconciled > 0 && i.finalizer && i.external.Some?
  }

  // ---------- The life of an instance ----------

  datatype Phase =
    | New | Provisioning | AsyncProvisioning
    | Ready | Unready
    | Orphaned | AsyncOrphaned
    | Deprovisioning | AsyncDeprovisioning
    | Failed | Released

  function PhaseOf(i: Instance): Phase {
    if !i.finalizer then Released
    else if i.operation == Deprovision then (if i.async then AsyncDeprovisioning else Deprovisioning)
    else if i.orphan then (if i.async then AsyncOrphaned else Orphaned)
    else if i.operation != NoOperation then (if i.async then AsyncProvisioning else Provisioning)
    else if IsFailed(i) then Failed
    else if i.reconciled == 0 then New
    else if IsReady(i) then Ready
    else Unready
  }

  function RankOf(p: Phase): nat {
    match p
    case New => 0
    case Provisioning => 1
    case AsyncProvisioning => 2
    case Ready => 3
    case Unready => 4
    case Orphaned => 5
    case AsyncOrphaned => 6
    case Deprovisioning => 7
    case AsyncDeprovisioning => 8
    case Failed => 9
    case Released => 10
  }

  /** The phase graph: what a single committed write can do to the phase. */
  predicate Follows(p: Phase, q: Phase) {
    p == q ||
    match p
    case New => q in {Provisioning, Released}
    case Provisioning => q in {AsyncProvisioning, Ready, Orphaned, Failed, Released}
    case AsyncProvisioning => q in {Ready, Orphaned, Failed}
    case Ready => q in {Unready, Deprovisioning}
    case Unready => q in {Deprovisioning}
    case Orphaned => q in {AsyncOrphaned, Failed, Released}
    case AsyncOrphaned => q in {Failed}
    case Deprovisioning => q in {AsyncDeprovisioning, Failed, Released}
    case AsyncDeprovisioning => q in {Failed, Released}
    case Failed => q in {Released}
    case Released => false
  }

  function Rank(i: Instance): nat { RankOf(PhaseOf(i)) }

  /** Version `b` may follow version `a`, directly or not: everything that only ever moves one way. */
  ghost predicate Later(a: Instance, b: Instance) {
    && Rank(a) <= Rank(b)
    && a.generation <= b.generation
    && (a.deleted ==> b.deleted)
    && (!a.finalizer ==> !b.finalizer && b.operation == a.operation)
    && (a.reconciled > 0 ==> b.reconciled > 0)
    && (IsFailed(a) ==> IsFailed(b))
    && (a.orphan && b.operation == Provision && b.finalizer ==> b.orphan)
    && (a.classRef.Some? ==> b.classRef == a.classRef)
    && (a.planRef.Some? ==> b.planRef == a.planRef)
    && (a.external.Some? ==> b.external == a.external || b.external.None?)
    && (a.external.None? && a.reconciled > 0 ==> b.external.None?)
    && SameWindow(a, b)
  }

  /** Version `b` may directly follow version `a`. */
  ghost predicate Succeeds(a: Instance, b: Instance) {
    Later(a, b) && Follows(PhaseOf(a), PhaseOf(b))
  }

  /** While one operation lasts, and while one orphan mitigation lasts, the recorded start stays. */
  ghost predicate SameWindow(a: Instance, b: Instance) {
    (a.operation == b.operation && a.orphan == b.orphan && a.start.Some? && a.operation != NoOperation) ==>
      b.start == a.start
  }

  lemma LaterIsTransitive(a: Instance, b: Instance, c: Instance)
    requires Good(a) && Good(b) && Good(c)
    requires Later(a, b) && Later(b, c)
    ensures Later(a, c)
  {
  }

  // ---------- One pass ----------

  ghost predicate GoodInputs(x: Inputs) {
    WellFormedOption(x.properties) && x.t0 <= x.t1
  }

  /** The version a write of a pass replaces, when that write commits. */
  function AfterReferences(s: Instance, tr: Trace): Instance {
    if tr.references.Some? then PrepareForReferencesUpdate(tr.references.value, s) else s
  }

  function AfterIntent(s: Instance, tr: Trace): Instance {
    var b := AfterReferences(s, tr);
    if tr.intent.Some? then PrepareForStatusUpdate(tr.intent.value, b) else b
  }

  function AfterFinal(s: Instance, tr: Trace): Instance {
    var b := AfterIntent(s, tr);
    if tr.final.Some? then PrepareForStatusUpdate(tr.final.value, b) else b
  }

  /** Each write of the pass leads from a good version to a later good one. */
  ghost predicate Advances(s: Instance, tr: Trace) {
    && !tr.crashed
    && Good(AfterReferences(s, tr)) && Succeeds(s, AfterReferences(s, tr))
    && Good(AfterIntent(s, tr)) && Succeeds(AfterReferences(s, tr), AfterIntent(s, tr))
    && Good(AfterFinal(s, tr)) && Succeeds(AfterIntent(s, tr), AfterFinal(s, tr))
  }

  /** Status `o`, written over version `b`, is a good next version. */
  ghost predicate Moves(b: Instance, o: Instance) {
    var n := PrepareForStatusUpdate(o, b);
    Good(n) && Succeeds(b, n)
  }

  lemma ReadyOnlyMoves(b: Instance, status: ConditionStatus, t: Time)
    requires Good(b) && status != ConditionTrue
    ensures Moves(b, SetReady(b, status, t))
  {
  }

  lemma RecordStartMoves(b: Instance, o: Instance, operation: Operation, t: Time)
    requires Good(b) && b.finalizer && b.operation == NoOperation && !IsFailed(b)
    requires b.classRef.Some?
    requires operation == Provision ==> b.reconciled == 0 && o.inProgress.Some? && WellFormedOption(o.inProgress)
    requires operation == Deprovision ==> b.reconciled > 0 && b.deleted && o.inProgress == b.inProgress
    requires operation in {Provision, Deprovision} && o == b.(inProgress := o.inProgress)
    ensures Moves(b, RecordStart(o, operation, t))
  {
  }

  // The replies to a provision call, from a version `b` that is provisioning.

  ghost predicate SendsProvision(b: Instance, o: Instance) {
    && Good(b) && b.finalizer && b.operation == Provision && !b.orphan && !b.async
    && o == b.(inProgress := o.inProgress) && o.inProgress.Some? && WellFormedOption(o.inProgress)
  }

  lemma ProvisionErrorMoves(b: Instance, o: Instance, t: Time)
    requires SendsProvision(b, o)
    ensures Moves(b, SetReady(o, ConditionFalse, t))
    ensures Moves(b, ClearOperation(SetFailed(SetReady(o, ConditionFalse, t), t)))
    ensures Moves(b, ClearOperation(SetReady(SetFailed(o, t), ConditionFalse, t)))
  {
  }

  lemma ProvisionOrphanMoves(b: Instance, o: Instance, t: Time)
    requires SendsProvision(b, o)
    ensures Moves(b, StartOrphanMitigation(SetReady(SetFailed(o, t), ConditionFalse, t)))
    ensures Moves(b, StartOrphanMitigation(SetFailed(SetReady(o, ConditionFalse, t), t)))
  {
  }

  lemma ProvisionReplyMoves(b: Instance, o: Instance, key: Option<Name>, t: Time)
    requires SendsProvision(b, o)
    ensures Moves(b, SetReady(RememberKey(o, key).(async := true), ConditionFalse, t))
    ensures Moves(b, SetReady(ClearOperation(o.(external := o.inProgress)), ConditionTrue, t))
  {
  }

  lemma SendProvisionMoves(tr: Trace, b: Instance, o: Instance, x: Inputs, retry: Time)
    requires SendsProvision(b, o) && x.properties.Some? && tr.final.None? && !tr.crashed
    ensures var r := SendProvision(tr, o, x, retry);
      && r.references == tr.references && r.intent == tr.intent && !r.crashed
      && (r.final.Some? ==> Moves(b, r.final.value))
  {
    ProvisionErrorMoves(b, o, x.t1);
    ProvisionOrphanMoves(b, o, x.t1);
    if x.provision.ProvisionAccepted? {
      ProvisionReplyMoves(b, o, x.provision.key, x.t1);
    } else {
      ProvisionReplyMoves(b, o, None, x.t1);
    }
  }

  ghost predicate Provisionable(o: Instance) {
    Good(o) && !o.async && !o.deleted && !o.orphan && !IsFailed(o) && o.reconciled == 0
  }

  lemma PrepareProvisionAdvances(tr: Trace, b: Instance, x: Inputs, retry: Time)
    requires Provisionable(b) && b.classRef.Some? && GoodInputs(x)
    requires tr.intent.None? && tr.final.None? && !tr.crashed
    ensures var r := PrepareProvision(tr, b, x, retry);
      && r.references == tr.references && !r.crashed
      && (r.intent.Some? ==> Moves(b, r.intent.value))
      && var b' := if r.intent.Some? then PrepareForStatusUpdate(r.intent.value, b) else b;
         (r.final.Some? ==> Moves(b', r.final.value))
  {
    ReadyOnlyMoves(b, ConditionFalse, x.t0);
    if x.lookup.Found? && x.namespaceFound && x.properties.Some? {
      var o := b.(inProgress := x.properties);
      if o.operation != NoOperation {
        SendProvisionMoves(tr, b, o, x, retry);
      } else {
        RecordStartMoves(b, o, Provision, x.t0);
        var o2 := RecordStart(o, Provision, x.t0);
        SendProvisionMoves(tr.(intent := Some(o2)), o2, o2, x, retry);
      }
    }
  }

  lemma ProvisionAdvances(s: Instance, x: Inputs, retry: Time)
    requires Provisionable(s) && GoodInputs(x)
    ensures Advances(s, ReconcileProvision(s, x, retry))
  {
    if s.classRef.Some? {
      PrepareProvisionAdvances(IDLE, s, x, retry);
    } else if x.resolvedClass.Some? && x.resolvedPlan.Some? {
      var o := s.(classRef := x.resolvedClass, planRef := x.resolvedPlan);
      assert Good(o) && Succeeds(s, o);
      PrepareProvisionAdvances(IDLE.(references := Some(o)), o, x, retry);
    } else {
      ReadyOnlyMoves(s, ConditionFalse, x.t0);
    }
  }

  // The replies to a deprovision call, from a version `b` that is deprovisioning or orphaned.

  ghost predicate SendsDeprovision(b: Instance, o: Instance) {
    && Good(b) && b.finalizer && Deleting(b) && !b.async
    && o == b.(start := o.start) && o.start.Some? && (b.start.Some? ==> o == b)
  }

  lemma DeprovisionErrorMoves(b: Instance, o: Instance, t: Time)
    requires SendsDeprovision(b, o)
    ensures Moves(b, SetReady(o, ConditionUnknown, t))
    ensures Moves(b, ClearOperation(FailUnlessOrphan(b.orphan, SetReady(o, ConditionUnknown, t), t)))
  {
  }

  lemma DeprovisionReplyMoves(b: Instance, o: Instance, key: Option<Name>, t: Time)
    requires SendsDeprovision(b, o)
    ensures Moves(b, SetReady(RememberKey(o, key).(async := true), ConditionFalse, t))
    ensures
      var o1 := SetReady(ClearOperation(o).(external := None), ConditionFalse, t);
      Moves(b, if b.deleted then o1.(finalizer := false) else o1)
  {
  }

  lemma SendDeprovisionMoves(tr: Trace, s: Instance, b: Instance, o: Instance, x: Inputs, retry: Time)
    requires SendsDeprovision(b, o) && s.orphan == b.orphan && s.deleted == b.deleted
    requires tr.final.None? && !tr.crashed
    ensures var r := SendDeprovision(tr, s, o, x, retry);
      && r.references == tr.references && r.intent == tr.intent && !r.crashed
      && (r.final.Some? ==> Moves(b, r.final.value))
  {
    DeprovisionErrorMoves(b, o, x.t1);
    if x.deprovision.DeprovisionAccepted? {
      DeprovisionReplyMoves(b, o, x.deprovision.key, x.t1);
    } else {
      DeprovisionReplyMoves(b, o, None, x.t1);
    }
    hide Moves, Good, SetCond, ClearOperation;
  }

  lemma ReleaseMoves(s: Instance)
    requires Good(s) && s.deleted && !s.async && !s.orphan && (IsFailed(s) || s.reconciled == 0)
    ensures Moves(s, s.(finalizer := false))
  {
  }

  /** The removal proper, past the checks that need no broker. */
  lemma RemoveAdvances(s: Instance, x: Inputs, retry: Time)
    requires Good(s) && GoodInputs(x) && !s.async && (s.deleted || s.orphan) && s.finalizer
    requires s.orphan || (!IsFailed(s) && s.reconciled > 0)
    requires x.credentials.NoCredentials? && x.lookup.Found?
    ensures Advances(s, ReconcileDelete(s, x, retry))
  {
    var o := if s.orphan && s.start.None? then s.(start := Some(x.t0)) else s;
    if o.operation != NoOperation {
      SendDeprovisionMoves(IDLE, s, s, o, x, retry);
    } else {
      RecordStartMoves(s, o, Deprovision, x.t0);
      var o1 := RecordStart(o, Deprovision, x.t0);
      SendDeprovisionMoves(IDLE.(intent := Some(o1)), s, o1, o1, x, retry);
    }
  }

  /** A pass with one last write, or none, advances if that write does. */
  lemma LastWriteAdvances(s: Instance, tr: Trace)
    requires Good(s) && !tr.crashed && tr.references.None? && tr.intent.None?
    requires tr.final.Some? ==> Moves(s, tr.final.value)
    ensures Advances(s, tr)
  {
  }

  lemma DeleteAdvances(s: Instance, x: Inputs, retry: Time)
    requires Good(s) && GoodInputs(x) && !s.async && (s.deleted || s.orphan)
    ensures Advances(s, ReconcileDelete(s, x, retry))
  {
    if x.credentials.NoCredentials? && s.finalizer && x.lookup.Found? && (s.orphan || (!IsFailed(s) && s.reconciled > 0)) {
      RemoveAdvances(s, x, retry);
    } else {
      if s.finalizer && !s.orphan && (IsFailed(s) || s.reconciled == 0) {
        ReleaseMoves(s);
      }
      ReadyOnlyMoves(s, ConditionFalse, x.t0);
      assert s.orphan || (!IsFailed(s) && s.reconciled > 0) ==> s.classRef.Some? && s.planRef.Some?;
      hide Moves, Good, Advances, SetCond, SendDeprovision;
      LastWriteAdvances(s, ReconcileDelete(s, x, retry));
    }
  }

  // The replies to a poll.

  lemma GiveUpMoves(s: Instance, o: Instance, t: Time)
    requires Good(s) && s.async && (o == s || o == SetReady(s, ConditionFalse, t))
    ensures var o1 := FailUnlessOrphan(s.orphan, o, t);
      Moves(s, if Deleting(s) then ClearOperation(o1) else StartOrphanMitigation(o1))
  {
  }

  lemma PollSucceededMoves(s: Instance, t: Time)
    requires Good(s) && s.async
    ensures var o := ClearOperation(s.(external := s.inProgress));
      if Deleting(s) then
        var o1 := SetReady(o, ConditionFalse, t);
        Moves(s, if s.orphan then o1 else o1.(finalizer := false))
      else Moves(s, SetReady(o, ConditionTrue, t))
  {
  }

  lemma PollFailedMoves(s: Instance, t: Time)
    requires Good(s) && s.async
    ensures
      var o := SetReady(ClearOperation(s), if Deleting(s) then ConditionUnknown else ConditionFalse, t);
      Moves(s, FailUnlessOrphan(s.orphan, o, t))
  {
  }

  lemma PollGoneMoves(s: Instance, t: Time)
    requires Good(s) && s.async && Deleting(s)
    ensures
      var o := SetReady(ClearOperation(s).(external := None), ConditionFalse, t);
      Moves(s, if s.orphan then o else o.(finalizer := false))
  {
  }

  lemma PollBrokerMoves(s: Instance, x: Inputs, late: bool)
    requires Good(s) && s.async
    ensures var r := PollBroker(s, x, late);
      && r.references.None? && r.intent.None? && !r.crashed
      && (r.final.Some? ==> Moves(s, r.final.value))
  {
    hide Moves, Good, SetCond, ClearOperation, StartOrphanMitigation;
    match x.poll
    case PollInProgress(described) =>
      var o := if described then SetReady(s, ConditionFalse, x.t1) else s;
      if late { GiveUpMoves(s, o, x.t1); } else { ReadyOnlyMoves(s, ConditionFalse, x.t1); }
    case PollSucceeded => PollSucceededMoves(s, x.t1);
    case PollFailed => PollFailedMoves(s, x.t1);
    case PollInvalid => GiveUpMoves(s, s, x.t1);
    case _ =>
      if Deleting(s) && x.poll.PollGone? { PollGoneMoves(s, x.t1); } else { GiveUpMoves(s, s, x.t1); }
  }

  lemma PollAdvances(s: Instance, x: Inputs, retry: Time)
    requires Good(s) && GoodInputs(x) && s.async
    ensures Advances(s, PollOperation(s, x, retry))
  {
    if x.lookup.Found? {
      PollBrokerMoves(s, x, Expired(s.start.value, retry, x.t1));
    } else {
      ReadyOnlyMoves(s, ConditionFalse, x.t0);
    }
  }

  /** Every pass over a good version advances it, write by write, and never follows a nil pointer. */
  lemma ReconcileAdvances(s: Instance, x: Inputs, retry: Time)
    requires Good(s) && GoodInputs(x)
    ensures Advances(s, Reconcile(s, x, retry))
  {
    if s.async {
      PollAdvances(s, x, retry);
    } else if s.deleted || s.orphan {
      DeleteAdvances(s, x, retry);
    } else if !IsFailed(s) && s.reconciled != s.generation {
      ProvisionAdvances(s, x, retry);
    }
  }
}
