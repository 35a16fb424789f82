/** What one pass of the credential control loop keeps, and how its writes relate to its call. */
module CredentialSteps {
  import opened Common
  import opened Credentials
  import Instances

  ghost predicate Good(i: Credential) {
    && GoodFrame(i)
    && (i.operation == NoOperation ==> i.start.None? && !i.orphan && i.inProgress.None?)
    && (i.operation == Bind ==> GoodBind(i))
    && (i.operation == Unbind ==>
          i.deleted && i.finalizer && !i.orphan && !IsReady(i) && i.start.Some? && i.inProgress.None?)
    && (IsReady(i) ==>
          i.operation == NoOperation && !IsFailed(i) && i.reconciled > 0 && i.finalizer && i.external.Some?)
  }

  ghost predicate GoodFrame(i: Credential) {
    && i.operation in {NoOperation, Bind, Unbind}
    && 1 <= i.generation && i.reconciled <= i.generation
    && (!i.deleted ==> i.finalizer && (i.reconciled == 0 || i.reconciled == i.generation))
    && (IsFailed(i) ==> i.reconciled > 0 || i.orphan)
    && (!i.finalizer ==> i.operation == NoOperation && i.external.None?)
    && WellFormedOption(i.inProgress) && WellFormedOption(i.external)
  }

  ghost predicate GoodBind(i: Credential) {
    && i.reconciled == 0 && !IsReady(i) && i.finalizer
    && (if i.orphan then IsFailed(i) && i.inProgress.None?
        else !IsFailed(i) && i.inProgress.Some? && i.start.Some?)
  }

  // ---------- The life of a credential ----------

  datatype Phase = New | Binding | Bound | Unready | Orphaned | Unbinding | Failed | Released

  function PhaseOf(i: Credential): Phase {
    if !i.finalizer then Released
    else if i.operation == Unbind then Unbinding
    else if i.orphan then Orphaned
    else if i.operation == Bind then Binding
    else if IsFailed(i) then Failed
    else if i.reconciled == 0 then New
    else if IsReady(i) then Bound
    else Unready
  }

  /** Unbinding and Failed may alternate: without validation, a failed unbind is tried again. */
  function RankOf(p: Phase): nat {
    match p
    case New => 0
    case Binding => 1
    case Bound => 2
    case Unready => 3
    case Orphaned => 4
    case Unbinding => 5
    case Failed => 5
    case Released => 6
  }

  function Rank(i: Credential): nat { RankOf(PhaseOf(i)) }

  predicate Follows(p: Phase, q: Phase) {
    p == q ||
    match p
    case New => q in {Binding, Unbinding}
    case Binding => q in {Bound, Orphaned, Failed, Released}
    case Bound => q in {Unready, Unbinding}
    case Unready => q in {Unbinding}
    case Orphaned => q in {Failed}
    case Unbinding => q in {Failed, Released}
    case Failed => q in {Unbinding}
    case Released => false
  }

  /** Not ready, and never to be: marked for deletion or failed. */
  predicate Doomed(i: Credential) {
    !IsReady(i) && (i.deleted || IsFailed(i))
  }

  ghost predicate Later(a: Credential, b: Credential) {
    && Rank(a) <= Rank(b)
    && a.generation <= b.generation
    && (a.deleted ==> b.deleted)
    && (!a.finalizer ==> !b.finalizer)
    && (a.reconciled > 0 ==> b.reconciled > 0)
    && (IsFailed(a) ==> IsFailed(b))
    && (Doomed(a) ==> Doomed(b))
    && (a.operation == Bind && b.operation == Bind && a.orphan == b.orphan && a.start.Some? ==> b.start == a.start)
  }

  ghost predicate Succeeds(a: Credential, b: Credential) {
    Later(a, b) && Follows(PhaseOf(a), PhaseOf(b))
  }

  lemma LaterIsTransitive(a: Credential, b: Credential, c: Credential)
    requires Good(a) && Good(b) && Good(c)
    requires Later(a, b) && Later(b, c)
    ensures Later(a, c)
  {
  }

  // ---------- One pass ----------

  ghost predicate GoodInputs(x: Inputs) {
    WellFormedOption(x.properties) && x.t0 <= x.t1
  }

  function AfterIntent(s: Credential, tr: Trace): Credential {
    if tr.intent.Some? then PrepareForStatusUpdate(tr.intent.value, s) else s
  }

  function AfterFinal(s: Credential, tr: Trace): Credential {
    if tr.final.Some? then PrepareForStatusUpdate(tr.final.value, AfterIntent(s, tr)) else AfterIntent(s, tr)
  }

  ghost predicate Advances(s: Credential, tr: Trace) {
    && !tr.crashed
    && Good(AfterIntent(s, tr)) && Succeeds(s, AfterIntent(s, tr))
    && Good(AfterFinal(s, tr)) && Succeeds(AfterIntent(s, tr), AfterFinal(s, tr))
  }

  ghost predicate Moves(b: Credential, o: Credential) {
    var n := PrepareForStatusUpdate(o, b);
    Good(n) && Succeeds(b, n)
  }

  lemma ReadyOnlyMoves(b: Credential, status: ConditionStatus, t: Time)
    requires Good(b) && status != ConditionTrue
    ensures Moves(b, SetReady(b, status, t))
  {
  }

  lemma RecordBindMoves(b: Credential, p: Option<Properties>, t: Time)
    requires Good(b) && PhaseOf(b) == New && !b.deleted && p.Some? && WellFormedOption(p)
    ensures Moves(b, RecordStart(b.(inProgress := p), Bind, t))
  {
  }

  lemma RecordUnbindMoves(b: Credential, t: Time)
    requires Good(b) && b.finalizer && b.deleted && b.operation == NoOperation
    ensures Moves(b, RecordStart(b, Unbind, t))
  {
  }

  /** Version `b` is binding, and `o` is what the reply to a bind call is applied to. */
  ghost predicate SendsBind(b: Credential, o: Credential) {
    && Good(b) && b.operation == Bind && !b.orphan && !b.deleted
    && o == b.(inProgress := o.inProgress) && o.inProgress.Some? && WellFormedOption(o.inProgress)
  }

  lemma BindFailureMoves(b: Credential, o: Credential, t: Time)
    requires SendsBind(b, o)
    ensures Moves(b, StartOrphanMitigation(SetFailed(o, t), t))
    ensures Moves(b, ClearOperation(SetReady(SetFailed(o, t), ConditionFalse, t)))
    ensures Moves(b, SetReady(o, ConditionFalse, t))
    ensures Moves(b, ClearOperation(SetFailed(SetReady(o, ConditionFalse, t), t)))
  {
  }

  lemma BindSuccessMoves(b: Credential, o: Credential, t: Time)
    requires SendsBind(b, o)
    ensures var o1 := o.(external := o.inProgress);
      && Moves(b, SetReady(ClearOperation(o1), ConditionTrue, t))
      && Moves(b, SetReady(o1, ConditionFalse, t))
      && Moves(b, StartOrphanMitigation(SetFailed(SetReady(o1, ConditionFalse, t), t), t))
  {
  }

  lemma SendBindMoves(tr: Trace, b: Credential, o: Credential, x: Inputs, retry: Time)
    requires SendsBind(b, o) && x.properties.Some? && tr.final.None? && !tr.crashed
    ensures var r := SendBind(tr, o, x, retry);
      !r.crashed && (r.final.Some? ==> Moves(b, r.final.value))
  {
    BindFailureMoves(b, o, x.t1);
    BindSuccessMoves(b, o, x.t1);
    assert o.start.Some?;
    hide Moves, Good, SetCond, ClearOperation;
  }

  /** Version `b` is being removed, and `o` is what the reply to an unbind call is applied to. */
  ghost predicate SendsUnbind(b: Credential, o: Credential) {
    && Good(b) && b.operation != NoOperation && (b.deleted || b.orphan)
    && o == b.(start := o.start) && o.start.Some? && (b.start.Some? ==> o == b)
  }

  lemma UnbindFailureMoves(b: Credential, o: Credential, t: Time)
    requires SendsUnbind(b, o)
    ensures var o1 := SetReady(o, ConditionUnknown, t);
      && Moves(b, ClearOperation(if o.orphan then o1 else SetFailed(o1, t)))
      && Moves(b, o1)
      && Moves(b, ClearOperation(SetFailed(o1, t)))
  {
  }

  lemma UnbindSuccessMoves(b: Credential, o: Credential, t: Time)
    requires SendsUnbind(b, o)
    ensures var o1 := SetReady(o, ConditionFalse, t);
      Moves(b, ClearOperation((if o.orphan then o1 else o1.(finalizer := false)).(external := None)))
  {
  }

  lemma SendUnbindMoves(tr: Trace, b: Credential, o: Credential, x: Inputs, retry: Time)
    requires SendsUnbind(b, o) && tr.final.None? && !tr.crashed
    ensures var r := SendUnbind(tr, o, x, retry);
      !r.crashed && (r.final.Some? ==> Moves(b, r.final.value))
  {
    UnbindFailureMoves(b, o, x.t1);
    UnbindSuccessMoves(b, o, x.t1);
    hide Moves, Good, SetCond, ClearOperation;
  }

  lemma BindAdvances(s: Credential, x: Inputs, retry: Time)
    requires Good(s) && GoodInputs(x) && !s.deleted && !s.orphan && !IsFailed(s) && s.reconciled == 0
    ensures Advances(s, PrepareBind(s, x, retry))
  {
    hide SendBind;
    ReadyOnlyMoves(s, ConditionFalse, x.t0);
    if x.properties.Some? {
      var o := s.(inProgress := x.properties);
      if o.operation != NoOperation {
        SendBindMoves(IDLE, s, o, x, retry);
      } else {
        RecordBindMoves(s, x.properties, x.t0);
        var o1 := RecordStart(o, Bind, x.t0);
        SendBindMoves(IDLE.(intent := Some(o1)), o1, o1, x, retry);
      }
    }
  }

  lemma UnbindAdvances(s: Credential, x: Inputs, retry: Time)
    requires Good(s) && GoodInputs(x) && (s.deleted || s.orphan) && s.finalizer
    ensures Advances(s, PrepareUnbind(s, x, retry))
  {
    hide SendUnbind;
    ReadyOnlyMoves(s, ConditionUnknown, x.t0);
    var tr := IDLE.(eject := true);
    if s.operation == NoOperation {
      RecordUnbindMoves(s, x.t0);
      var o := RecordStart(s, Unbind, x.t0);
      SendUnbindMoves(tr.(intent := Some(o)), o, o, x, retry);
    } else {
      SendUnbindMoves(tr, s, if s.orphan && s.start.None? then s.(start := Some(x.t0)) else s, x, retry);
    }
  }

  /** Every pass over a good version advances it, write by write, and never follows a nil pointer. */
  lemma ReconcileAdvances(s: Credential, x: Inputs, retry: Time)
    requires Good(s) && GoodInputs(x)
    ensures Advances(s, Reconcile(s, x, retry))
  {
    hide PrepareBind, PrepareUnbind;
    ReadyOnlyMoves(s, ConditionFalse, x.t0);
    if !s.deleted && !s.orphan {
      if !IsFailed(s) && s.reconciled != s.generation { BindAdvances(s, x, retry); }
    } else if s.finalizer {
      UnbindAdvances(s, x, retry);
    }
  }

  // ---------- Calls follow intents, and replies decide ----------

  /** When the broker is called, and what is true of the version then in force. */
  lemma CallsFollowIntents(s: Credential, x: Inputs, retry: Time)
    requires Good(s) && GoodInputs(x)
    ensures var tr := Reconcile(s, x, retry);
      var b := AfterIntent(s, tr);
      && (tr.intent.Some? && (tr.call != NoCall || tr.final.Some?) ==> x.okIntent)
      && (tr.intent.Some? ==> !IsReady(b) && b.finalizer && b.external == s.external)
      && (tr.call.CallBind? ==>
            && PhaseOf(b) == Binding && !b.deleted && !Doomed(b) && x.properties == Some(tr.call.properties) && !tr.eject
            && PhaseOf(s) in {New, Binding} && !s.deleted && !IsFailed(s)
            && x.instance.Some? && Instances.IsReady(x.instance.value) && !x.instance.value.async)
      && (tr.call == CallUnbind ==> b.operation != NoOperation && Doomed(b) && tr.eject && x.ejected)
      && (tr.eject ==> s.deleted || s.orphan)
  {
    hide SendBind, SendUnbind;
    if s.operation == NoOperation && s.finalizer && s.deleted { RecordUnbindMoves(s, x.t0); }
    if PhaseOf(s) == New && !s.deleted && x.properties.Some? { RecordBindMoves(s, x.properties, x.t0); }
  }

  /** The final object of a bind pass, when there is one: ready only if the secret was filled, and within its window. */
  ghost predicate BindOutcome(o: Credential, x: Inputs, retry: Time, n: Credential) {
    && n.finalizer == o.finalizer
    && (IsReady(n) ==> x.bind.BindDone? && x.injected && n.external == o.inProgress)
    && (n.operation != NoOperation && n.start.Some? ==> !Instances.Expired(n.start.value, retry, x.t1))
  }

  lemma BindDoneReply(tr: Trace, o: Credential, x: Inputs, retry: Time)
    requires x.properties.Some? && tr.final.None? && x.bind.BindDone?
    ensures var r := SendBind(tr, o, x, retry);
      r.inject && (r.final.Some? ==> BindOutcome(o, x, retry, r.final.value))
  {
    hide SetCond, Instances.ShouldStartOrphanMitigation, Instances.Expired;
  }

  lemma BindTimeoutReply(tr: Trace, o: Credential, x: Inputs, retry: Time)
    requires x.properties.Some? && tr.final.None? && !tr.inject && x.bind.BindTimeout?
    ensures var r := SendBind(tr, o, x, retry);
      !r.inject && (r.final.Some? ==> BindOutcome(o, x, retry, r.final.value))
  {
    hide SetCond, Instances.Expired;
  }

  lemma BindRefusedReply(tr: Trace, o: Credential, x: Inputs, retry: Time)
    requires x.properties.Some? && tr.final.None? && !tr.inject && x.bind.BindHttpError?
    requires !Instances.ShouldStartOrphanMitigation(x.bind.code)
    ensures var r := SendBind(tr, o, x, retry);
      !r.inject && (r.final.Some? ==> BindOutcome(o, x, retry, r.final.value))
  {
    hide SetCond, Instances.ShouldStartOrphanMitigation, Instances.Expired;
  }

  lemma BindOrphanReply(tr: Trace, o: Credential, x: Inputs, retry: Time)
    requires x.properties.Some? && tr.final.None? && !tr.inject && x.bind.BindHttpError?
    requires Instances.ShouldStartOrphanMitigation(x.bind.code)
    ensures var r := SendBind(tr, o, x, retry);
      !r.inject && (r.final.Some? ==> BindOutcome(o, x, retry, r.final.value))
  {
    hide SetCond, Instances.ShouldStartOrphanMitigation, Instances.Expired;
  }

  lemma BindErrorReply(tr: Trace, o: Credential, x: Inputs, retry: Time)
    requires x.properties.Some? && tr.final.None? && !tr.inject && x.bind.BindError?
    ensures var r := SendBind(tr, o, x, retry);
      !r.inject && (r.final.Some? ==> BindOutcome(o, x, retry, r.final.value))
  {
    hide SetCond, Instances.ShouldStartOrphanMitigation, Instances.Expired;
  }

  lemma BindReplies(tr: Trace, o: Credential, x: Inputs, retry: Time)
    requires x.properties.Some? && tr.final.None? && !tr.inject
    ensures var r := SendBind(tr, o, x, retry);
      (r.inject <==> x.bind.BindDone?) && (r.final.Some? ==> BindOutcome(o, x, retry, r.final.value))
  {
    hide SendBind, BindOutcome;
    match x.bind
    case BindDone(_) => BindDoneReply(tr, o, x, retry);
    case BindTimeout => BindTimeoutReply(tr, o, x, retry);
    case BindHttpError(code) =>
      if Instances.ShouldStartOrphanMitigation(code) {
        BindOrphanReply(tr, o, x, retry);
      } else {
        BindRefusedReply(tr, o, x, retry);
      }
    case BindError => BindErrorReply(tr, o, x, retry);
  }

  ghost predicate UnbindOutcome(o: Credential, x: Inputs, retry: Time, n: Credential) {
    && !IsReady(n)
    && (!n.finalizer ==> x.unbind.UnbindDone? && !o.orphan)
    && (n.operation != NoOperation ==> n.start.Some? && !Instances.Expired(n.start.value, retry, x.t1))
  }

  lemma UnbindErrorReply(tr: Trace, o: Credential, x: Inputs, retry: Time)
    requires tr.final.None? && o.finalizer && x.unbind.UnbindError?
    ensures var r := SendUnbind(tr, o, x, retry);
      r.final.Some? ==> UnbindOutcome(o, x, retry, r.final.value)
  {
    hide SetCond, Instances.Expired;
  }

  lemma UnbindDoneReply(tr: Trace, o: Credential, x: Inputs, retry: Time)
    requires tr.final.None? && o.finalizer && x.unbind.UnbindDone?
    ensures var r := SendUnbind(tr, o, x, retry);
      r.final.Some? ==> UnbindOutcome(o, x, retry, r.final.value)
  {
    hide SetCond, Instances.Expired;
  }

  lemma UnbindHttpReply(tr: Trace, o: Credential, x: Inputs, retry: Time)
    requires tr.final.None? && o.finalizer && x.unbind.UnbindHttpError?
    ensures var r := SendUnbind(tr, o, x, retry);
      r.final.Some? ==> UnbindOutcome(o, x, retry, r.final.value)
  {
    hide SetCond, Instances.Expired;
  }

  lemma UnbindReplies(tr: Trace, o: Credential, x: Inputs, retry: Time, r: Trace)
    requires tr.final.None? && o.finalizer && r == SendUnbind(tr, o, x, retry)
    ensures r.final.Some? ==> UnbindOutcome(o, x, retry, r.final.value)
  {
    hide SendUnbind;
    match x.unbind
    case UnbindDone => UnbindDoneReply(tr, o, x, retry);
    case UnbindHttpError => UnbindHttpReply(tr, o, x, retry);
    case UnbindError => UnbindErrorReply(tr, o, x, retry);
  }

  /** What a last write over `b` says about the call it follows. */
  ghost predicate Accounts(tr: Trace, x: Inputs, retry: Time, b: Credential, n: Credential) {
    && (IsReady(n) && !IsReady(b) ==>
          tr.call.CallBind? && x.bind.BindDone? && x.injected && n.external == Some(tr.call.properties))
    && (IsReady(n) && IsReady(b) ==> n.external == b.external)
    && (!n.finalizer && b.finalizer ==> tr.call == CallUnbind && x.unbind.UnbindDone? && n.deleted)
    && (tr.inject ==> tr.call.CallBind? && x.bind.BindDone?)
    && (tr.call != NoCall && tr.final.Some? && n.operation != NoOperation && n.start.Some? ==>
          !Instances.Expired(n.start.value, retry, x.t1))
  }

  /** The trace of a pass that calls the broker continues the version in force at the call. */
  ghost predicate Shape(s: Credential, x: Inputs, retry: Time) {
    var tr := Reconcile(s, x, retry);
    var b := AfterIntent(s, tr);
    match tr.call
    case NoCall => !tr.inject && (AfterFinal(s, tr) == b || exists c, t :: c != ConditionTrue && AfterFinal(s, tr) == SetReady(b, c, t))
    case CallBind(p) =>
      && x.properties == Some(p) && PhaseOf(b) == Binding
      && tr == SendBind(IDLE.(intent := tr.intent), b.(inProgress := x.properties), x, retry)
    case CallUnbind =>
      var o := if b.orphan && b.start.None? then b.(start := Some(x.t0)) else b;
      && SendsUnbind(b, o) && b.finalizer
      && tr == SendUnbind(IDLE.(eject := true, intent := tr.intent), o, x, retry)
  }

  lemma ReconcileShape(s: Credential, x: Inputs, retry: Time)
    requires Good(s) && GoodInputs(x)
    ensures Shape(s, x, retry)
  {
    hide SendBind, SendUnbind;
    if s.operation == NoOperation && s.finalizer && s.deleted { RecordUnbindMoves(s, x.t0); }
    if PhaseOf(s) == New && !s.deleted && x.properties.Some? { RecordBindMoves(s, x.properties, x.t0); }
  }

  lemma FinalAccounts(s: Credential, x: Inputs, retry: Time)
    requires Good(s) && GoodInputs(x)
    ensures var tr := Reconcile(s, x, retry);
      Accounts(tr, x, retry, AfterIntent(s, tr), AfterFinal(s, tr))
  {
    hide Reconcile, SendBind, SendUnbind;
    ReconcileShape(s, x, retry);
    ReconcileAdvances(s, x, retry);
    var tr := Reconcile(s, x, retry);
    var b := AfterIntent(s, tr);
    if tr.call.CallBind? {
      BindReplies(IDLE.(intent := tr.intent), b.(inProgress := x.properties), x, retry);
    } else if tr.call == CallUnbind {
      var o := if b.orphan && b.start.None? then b.(start := Some(x.t0)) else b;
      UnbindReplies(IDLE.(eject := true, intent := tr.intent), o, x, retry, tr);
    }
  }
}
