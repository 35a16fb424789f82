/** What holds of a credential in every reachable state and over every run. */
module CredentialTheorems {
  import opened Common
  import opened Credentials
  import opened CredentialSteps
  import opened CredentialValidation
  import opened CredentialRuns
  import Instances

  /** Write-ahead intent: a credential stored as ready is held by the broker and no unbind was ever sent. */
  lemma ReadyIsHeld(w: World)
    requires Reachable(w) && IsReady(Stored(w))
    ensures w.broker.held && !w.broker.unbindSent
  {
    ReachableInv(w);
  }

  /** Once an unbind was sent, the credential is never ready again. */
  lemma UnbindIsFinal(w: World, es: seq<Event>, w': World)
    requires Reachable(w) && w.broker.unbindSent && Runs(w, es, w')
    ensures !IsReady(Stored(w'))
  {
    ReachableInv(w);
    RunKeepsInv(w, es, w');
    RunExtends(w, es, w');
  }

  lemma {:induction false} RunExtends(w: World, es: seq<Event>, w': World)
    requires Runs(w, es, w')
    ensures w.history <= w'.history
    ensures w.broker.unbindSent ==> w'.broker.unbindSent
    decreases |es|
  {
    if es != [] {
      var w1 := Next(w, es[0]);
      assert w.history <= w1.history;
      RunExtends(w1, es[1..], w');
    }
  }

  // ---------- Release ----------

  /**
    The finalizer of a credential is removed only once its deletion was requested, in a pass that
    ejected the secret and had the broker confirm the unbind.
   */
  lemma ReleaseIsConfirmed(w: World, i: nat)
    requires Reachable(w) && i + 1 < |w.history|
    requires w.history[i].state.finalizer && !w.history[i + 1].state.finalizer
    ensures w.history[i + 1].state.deleted
    ensures w.history[i + 1].cause.FinalWrite? && w.history[i + 1].cause.ejected && w.history[i + 1].cause.unbound
  {
    ReachableInv(w);
  }

  /** A run whose passes all start from the newest version. */
  ghost predicate RunsNewest(w: World, es: seq<Event>, w': World)
    decreases |es|
  {
    w.history != [] && w'.history != [] &&
    if es == [] then w' == w
    else
      && Legal(w, es[0]) && (es[0].Pass? ==> es[0].from + 1 == |w.history|)
      && RunsNewest(Next(w, es[0]), es[1..], w')
  }

  /** Released, and no bind request the broker ever got may still act. */
  ghost predicate Settled(w: World) {
    Inv(w) && !Stored(w).finalizer && !MayActLate(w.broker) && !w.broker.outdated
  }

  lemma SettledStep(w: World, e: Event)
    requires Settled(w) && Legal(w, e) && (e.Pass? ==> e.from + 1 == |w.history|)
    ensures Settled(Next(w, e))
  {
    StepKeepsInv(w, e);
    if e.Pass? {
      CallsFollowIntents(Stored(w), e.inputs, w.retry);
      ReconcileAdvances(Stored(w), e.inputs, w.retry);
    }
  }

  lemma {:induction false} SettledForever(w: World, es: seq<Event>, w': World)
    requires Settled(w) && RunsNewest(w, es, w')
    ensures Settled(w') && !w'.broker.held
    decreases |es|
  {
    if es != [] {
      SettledStep(w, es[0]);
      SettledForever(Next(w, es[0]), es[1..], w');
    }
  }

  /** A bind request that is not settled may still make the broker hold the credential. */
  lemma UnsettledMayAct(w: World) returns (es: seq<Event>, w': World)
    requires Inv(w) && MayActLate(w.broker)
    ensures RunsNewest(w, es, w') && w'.broker.held
  {
    if w.broker.held {
      es, w' := [], w;
    } else {
      es := [BrokerActs(true)];
      w' := Next(w, es[0]);
      assert es[1..] == [];
      assert RunsNewest(w', es[1..], w');
    }
  }

  /** Some run with fresh reads ends with the broker holding the credential. */
  ghost predicate MayBeHeldLater(w: World) {
    exists es, w' :: RunsNewest(w, es, w') && w'.broker.held
  }

  /**
    Release safety, exactly: with fresh reads, after the finalizer is gone the broker can come to
    hold the credential again if and only if some bind request may still act. For a broker that
    settles what it answers, those are the requests it left unanswered.
   */
  lemma ReleasedIsFree(w: World)
    requires Reachable(w) && !Stored(w).finalizer && !w.broker.outdated
    ensures MayBeHeldLater(w) <==> MayActLate(w.broker)
    ensures w.broker.settles ==> (MayBeHeldLater(w) <==> w.broker.unanswered)
  {
    ReachableInv(w);
    if MayActLate(w.broker) {
      var es, w' := UnsettledMayAct(w);
    } else if MayBeHeldLater(w) {
      var es, w' :| RunsNewest(w, es, w') && w'.broker.held;
      SettledForever(w, es, w');
    }
  }

  /** Fresh reads are needed: a pass from any outdated version that was binding can bind again, released or not. */
  lemma OutdatedPassMayRebind(w: World, k: nat, p: Properties, i: Instances.Instance)
    returns (e: Event)
    requires Reachable(w) && k < |w.history| && PhaseOf(w.history[k].state) == Binding && !w.history[k].state.deleted
    requires WellFormed(p) && Instances.IsReady(i) && !i.async && i.classRef.Some? && i.planRef.Some?
    ensures Legal(w, e) && e.Pass? && e.from == k && Next(w, e).broker.held
  {
    hide HoldInv, BoundInv, FaithfulInv, SecretInv, ReleasedProperly, Timely, Later, Follows, Valid, SendUnbind;
    ReachableInv(w);
    var x := Inputs(Some(i), Found, true, true, Some(p), BindDone(map[]), false, true, UnbindDone, w.now, w.now, false, false);
    e := Pass(k, x, Commits(false, false), SecretAccess(true, NotWritten, NotWritten), true);
  }

  /** Some run, with any passes at all, ends with the broker holding the credential. */
  ghost predicate MayEverBeHeld(w: World) {
    exists es, w' :: Runs(w, es, w') && w'.broker.held
  }

  /** Released, without a version that ever could have sent a bind request. */
  ghost predicate NeverBinding(w: World) {
    Inv(w) && !Stored(w).finalizer && !WasBinding(w.history)
  }

  lemma NeverBindingPass(w: World, e: Event)
    requires NeverBinding(w) && e.Pass? && Legal(w, e)
    ensures !Reconcile(w.history[e.from].state, e.inputs, w.retry).call.CallBind?
  {
    hide Reconcile, Good, Later, Follows, HoldInv, SecretInv, FaithfulInv, ReleasedProperly, Timely;
    CallsFollowIntents(w.history[e.from].state, e.inputs, w.retry);
  }

  lemma NeverBindingStep(w: World, e: Event)
    requires NeverBinding(w) && Legal(w, e)
    ensures NeverBinding(Next(w, e))
  {
    StepKeepsInv(w, e);
    if e.Pass? { NeverBindingPass(w, e); }
    var h, h' := w.history, Next(w, e).history;
    hide Reconcile, Good, HoldInv, BoundInv, SecretInv, FaithfulInv, ReleasedProperly, Timely, Next;
    assert h <= h' by { RunsFrom(w, e, [], Next(w, e)); RunExtends(w, [e] + [], Next(w, e)); }
    forall i | 0 <= i < |h'|
      ensures !(PhaseOf(h'[i].state) == Binding && !h'[i].state.deleted)
    {
      if i < |h| {
        assert h'[i] == h[i];
      } else {
        assert Later(h'[|h| - 1].state, h'[i].state);
      }
    }
    assert !Stored(Next(w, e)).finalizer;
  }

  lemma {:induction false} NeverBindingForever(w: World, es: seq<Event>, w': World)
    requires NeverBinding(w) && Runs(w, es, w')
    ensures NeverBinding(w') && !w'.broker.held
    decreases |es|
  {
    if es != [] {
      NeverBindingStep(w, es[0]);
      NeverBindingForever(Next(w, es[0]), es[1..], w');
    }
  }

  /**
    The same for all runs and all brokers: with outdated passes, a released credential can come to
    be held again if and only if some version was binding before its deletion was requested.
   */
  lemma ReleasedForever(w: World)
    requires Reachable(w) && !Stored(w).finalizer
    ensures MayEverBeHeld(w) <==> WasBinding(w.history)
  {
    ReachableInv(w);
    if WasBinding(w.history) {
      var k :| 0 <= k < |w.history| && PhaseOf(w.history[k].state) == Binding && !w.history[k].state.deleted;
      var i := Instances.CREATED.(classRef := Some(""), planRef := Some(""), ready := Some(Cond(ConditionTrue, 0)));
      var e := OutdatedPassMayRebind(w, k, Properties("", None, ""), i);
      RunsFrom(w, e, [], Next(w, e));
    } else if MayEverBeHeld(w) {
      var es, w' :| Runs(w, es, w') && w'.broker.held;
      NeverBindingForever(w, es, w');
    }
  }

  // ---------- Conditions, phases, pointers, windows ----------

  lemma FailedIsAbsorbing(w: World, i: nat, j: nat)
    requires Reachable(w) && i <= j < |w.history|
    ensures IsFailed(w.history[i].state) ==> IsFailed(w.history[j].state)
    ensures !(IsFailed(w.history[i].state) && IsReady(w.history[i].state))
    ensures w.history[i].state.orphan ==> IsFailed(w.history[i].state) && w.history[i].state.operation == Bind
  {
    ReachableInv(w);
  }

  lemma FailedSendsNoBind(w: World, from: nat, x: Inputs)
    requires Reachable(w) && from < |w.history| && IsFailed(w.history[from].state) && GoodInputs(x)
    ensures !Reconcile(w.history[from].state, x, w.retry).call.CallBind?
  {
    ReachableInv(w);
    CallsFollowIntents(w.history[from].state, x, w.retry);
  }

  lemma NoPassCrashes(w: World, from: nat, x: Inputs)
    requires Reachable(w) && from < |w.history| && GoodInputs(x)
    ensures !Reconcile(w.history[from].state, x, w.retry).crashed
  {
    ReachableInv(w);
    ReconcileAdvances(w.history[from].state, x, w.retry);
  }

  /** Committed versions follow the phase graph; binding and its mitigation each start once. */
  lemma BindStartsOnce(w: World, i: nat, j: nat, k: nat)
    requires Reachable(w) && i <= j <= k < |w.history|
    ensures var a, b, c := w.history[i].state, w.history[j].state, w.history[k].state;
      && Rank(a) <= Rank(b)
      && (j == i + 1 ==> Follows(PhaseOf(a), PhaseOf(b)))
      && (a.operation == Bind && c.operation == Bind ==> b.operation == Bind)
      && (a.orphan && c.orphan ==> b.orphan)
  {
    hide HoldInv, FaithfulInv, SecretInv, ReleasedProperly, Timely, Valid, Good, Later, Follows;
    ReachableInv(w);
    Stretch(w.history[i].state, w.history[j].state, w.history[k].state);
  }

  lemma Stretch(a: Credential, b: Credential, c: Credential)
    requires Good(a) && Good(b) && Good(c) && (a == b || Later(a, b)) && (b == c || Later(b, c))
    ensures Rank(a) <= Rank(b)
    ensures a.operation == Bind && c.operation == Bind ==> b.operation == Bind
    ensures a.orphan && c.orphan ==> b.orphan
  {
  }

  /** No version still in progress was written by a reply past its deadline. */
  lemma RetriesEndAtDeadline(w: World, i: nat)
    requires Reachable(w) && i < |w.history|
    ensures var v := w.history[i];
      v.cause.FinalWrite? && v.cause.call != NoCall && v.state.operation != NoOperation && v.state.start.Some? ==>
        v.at < v.state.start.value + w.retry
  {
    ReachableInv(w);
  }

  // ---------- Properties and secrets ----------

  lemma ExternalIsAcknowledged(w: World)
    requires Reachable(w) && IsReady(Stored(w))
    ensures var p := Stored(w).external;
      p.Some? && p.value in w.broker.acknowledged && (!w.broker.outdated ==> p.value == Last(w.broker.acknowledged))
  {
    ReachableInv(w);
  }

  /**
    A ready credential not marked for deletion has a secret that it controls and whose data is a
    serialized payload of the broker: the latest one, unless an outdated pass asked for another.
   */
  lemma ReadyHasSecret(w: World)
    requires Reachable(w) && IsReady(Stored(w)) && !Stored(w).deleted
    ensures Carries(w.secret, w.uid, w.broker)
  {
    ReachableInv(w);
  }

  /** No pass, whatever version it starts from, fills a secret that another owner controls. */
  lemma ForeignSecretsAreSafe(w: World, e: Event)
    requires w.history != [] && Legal(w, e) && e.Pass?
    requires w.secret.Some? && !ControlledBy(w.secret.value, w.uid)
    ensures Next(w, e).secret == w.secret || Next(w, e).secret.None?
    ensures !Reconcile(w.history[e.from].state, e.inputs, w.retry).eject ==> Next(w, e).secret == w.secret
  {
    hide Reconcile;
    if e.inputs.bind.BindDone? {
      InjectedCarries(w.secret, w.uid, e.inputs.bind.payload, e.access.getFails, e.access.inject);
    }
  }

  // ---------- Validation ----------

  predicate Admissible(i: Credential) {
    !i.orphan && (i.operation != NoOperation ==> i.reconciled < i.generation)
  }

  lemma GoodBoundary(i: Credential)
    requires Good(i)
    ensures Valid(i) <==> Admissible(i)
  {
  }

  /** The exact validation boundary of every status any pass submits, in every run. */
  lemma ValidationBoundary(w: World, from: nat, x: Inputs)
    requires Reachable(w) && from < |w.history| && GoodInputs(x)
    ensures var s := w.history[from].state;
      var tr := Reconcile(s, x, w.retry);
      && (Valid(AfterIntent(s, tr)) <==> Admissible(AfterIntent(s, tr)))
      && (Valid(AfterFinal(s, tr)) <==> Admissible(AfterFinal(s, tr)))
  {
    hide Reconcile, Valid, Good, Succeeds;
    ReachableInv(w);
    var s := w.history[from].state;
    var tr := Reconcile(s, x, w.retry);
    ReconcileAdvances(s, x, w.retry);
    GoodBoundary(AfterIntent(s, tr));
    GoodBoundary(AfterFinal(s, tr));
  }

  lemma OrphansAreNeverStored(w: World, i: nat)
    requires Reachable(w) && w.validates && i < |w.history|
    ensures !w.history[i].state.orphan
  {
    ReachableInv(w);
  }

  /** What makes a pass that sent Bind start orphan mitigation: the reply, or a secret not filled in time. */
  predicate StartsMitigation(x: Inputs, start: Option<Time>, retry: Time) {
    match x.bind
    case BindTimeout => true
    case BindHttpError(code) => 201 <= code <= 299 || code == 408 || 500 <= code <= 599
    case BindError => false
    case BindDone(_) => !x.injected && start.Some? && Instances.Expired(start.value, retry, x.t1)
  }

  lemma BindReplyMitigates(tr: Trace, o: Credential, x: Inputs, retry: Time)
    requires x.properties.Some? && tr.final.None? && !o.orphan && !x.bind.BindDone?
    ensures var r := SendBind(tr, o, x, retry).final;
      if StartsMitigation(x, o.start, retry) then r.Some? && r.value.orphan else r.Some? ==> !r.value.orphan
  {
    hide SetCond, Instances.Expired;
    match x.bind
    case BindTimeout =>
    case BindHttpError(_) =>
    case BindError =>
  }

  lemma InjectionMitigates(tr: Trace, o: Credential, x: Inputs, retry: Time)
    requires x.properties.Some? && tr.final.None? && !o.orphan && x.bind.BindDone?
    ensures var r := SendBind(tr, o, x, retry).final;
      if StartsMitigation(x, o.start, retry) then r.Some? && r.value.orphan else r.Some? ==> !r.value.orphan
  {
    hide SetCond, Instances.Expired;
  }

  /** Exactly then a pass submits an orphan, which a validating server refuses. */
  lemma OrphansAreSubmitted(w: World, from: nat, x: Inputs)
    requires Reachable(w) && from < |w.history| && GoodInputs(x)
    requires Reconcile(w.history[from].state, x, w.retry).call.CallBind?
    ensures var s := w.history[from].state;
      var tr := Reconcile(s, x, w.retry);
      var mitigates := StartsMitigation(x, AfterIntent(s, tr).start, w.retry);
      && (AfterFinal(s, tr).orphan <==> mitigates)
      && (mitigates ==> tr.final.Some? && !Valid(AfterFinal(s, tr)))
  {
    hide Reconcile, SendBind, SendUnbind, Valid, StartsMitigation, HoldInv, BoundInv, FaithfulInv, SecretInv, Timely, Later, Follows;
    ReachableInv(w);
    var s := w.history[from].state;
    var tr := Reconcile(s, x, w.retry);
    ReconcileShape(s, x, w.retry);
    ReconcileAdvances(s, x, w.retry);
    assert Good(AfterIntent(s, tr));
    var o := AfterIntent(s, tr).(inProgress := x.properties);
    if x.bind.BindDone? {
      InjectionMitigates(IDLE.(intent := tr.intent), o, x, w.retry);
    } else {
      BindReplyMitigates(IDLE.(intent := tr.intent), o, x, w.retry);
    }
    GoodBoundary(AfterFinal(s, tr));
  }

  /** Such a pass happens on a validating server: the first bind request may time out. */
  lemma OrphanIsRefused(p: Properties, i: Instances.Instance) returns (w: World, x: Inputs)
    requires WellFormed(p) && Instances.IsReady(i) && !i.async && i.classRef.Some? && i.planRef.Some?
    ensures Reachable(w) && w.validates && GoodInputs(x)
    ensures Legal(w, Pass(|w.history| - 1, x, Commits(true, false), SecretAccess(false, NotWritten, NotWritten), false))
    ensures var s := Stored(w);
      var tr := Reconcile(s, x, w.retry);
      tr.final.Some? && AfterFinal(s, tr).orphan && !Valid(AfterFinal(s, tr))
  {
    w := World(0, [Version(CREATED, 0, Creation)], false, 0, 1, true, Broker(false, false, false, false, [], [], false, true), None);
    x := Inputs(Some(i), Found, true, true, Some(p), BindTimeout, false, true, UnbindDone, 0, 0, true, false);
    assert Runs(w, [], w);
    OrphansAreSubmitted(w, 0, x);
  }

  // ---------- A removal that can never finish ----------

  /** Marked for deletion, with nothing going on, and already reconciled at this generation. */
  predicate Overtaken(s: Credential) {
    s.deleted && s.finalizer && s.operation == NoOperation && s.reconciled == s.generation
  }

  ghost predicate Stuck(w: World) {
    Inv(w) && w.validates && Overtaken(Stored(w))
  }

  /** A quiet credential marked for deletion can record its removal exactly if its generation is ahead. */
  lemma RemovalIsAdmissible(s: Credential, t: Time)
    requires Good(s) && s.deleted && s.finalizer && s.operation == NoOperation
    ensures Valid(RecordStart(s, Unbind, t)) <==> !Overtaken(s)
  {
  }

  /** From an overtaken version a pass can only eject and report, since its intent is refused. */
  lemma OvertakenPass(s: Credential, x: Inputs, retry: Time)
    requires Good(s) && Overtaken(s)
    ensures var tr := Reconcile(s, x, retry);
      && (tr.intent.Some? ==> !Valid(AfterIntent(s, tr)))
      && (tr.intent.None? ==> tr.call == NoCall && (tr.final.Some? ==> Overtaken(AfterFinal(s, tr))))
  {
    hide SendUnbind;
  }

  lemma StuckPass(w: World, e: Event)
    requires Stuck(w) && Legal(w, e) && e.Pass? && e.from + 1 == |w.history|
    ensures Overtaken(Stored(Next(w, e))) && Next(w, e).broker.unbindSent == w.broker.unbindSent
  {
    hide Reconcile, Valid, HoldInv, BoundInv, FaithfulInv, SecretInv, ReleasedProperly, Timely, Later, Follows, SecretAfter;
    OvertakenPass(Stored(w), e.inputs, w.retry);
    CallsFollowIntents(Stored(w), e.inputs, w.retry);
  }

  lemma StuckStep(w: World, e: Event)
    requires Stuck(w) && Legal(w, e)
    ensures Stuck(Next(w, e))
    ensures (e.Pass? ==> e.from + 1 == |w.history|) ==> Next(w, e).broker.unbindSent == w.broker.unbindSent
  {
    hide Inv, Reconcile, Valid;
    StepKeepsInv(w, e);
    if e.Pass? && e.from + 1 == |w.history| {
      StuckPass(w, e);
    }
  }

  /** Under validation such a credential is never released, however long the run. */
  lemma {:induction false} StuckForever(w: World, es: seq<Event>, w': World)
    requires Stuck(w) && Runs(w, es, w')
    ensures Stuck(w') && Stored(w').finalizer
    decreases |es|
  {
    if es != [] {
      StuckStep(w, es[0]);
      StuckForever(Next(w, es[0]), es[1..], w');
    }
  }

  /** With fresh reads no further Unbind is sent either. */
  lemma {:induction false} StuckIsSilent(w: World, es: seq<Event>, w': World)
    requires Stuck(w) && RunsNewest(w, es, w')
    ensures Stuck(w') && w'.broker.unbindSent == w.broker.unbindSent
    decreases |es|
  {
    if es != [] {
      StuckStep(w, es[0]);
      StuckIsSilent(Next(w, es[0]), es[1..], w');
    }
  }

  lemma UnbindRefused(tr: Trace, o: Credential, x: Inputs, retry: Time)
    requires x.unbind.UnbindHttpError?
    ensures var r := SendUnbind(tr, o, x, retry);
      r.final.Some? && r.final.value == ClearOperation(r.final.value) &&
      r.final.value.finalizer == o.finalizer && r.final.value.generation == o.generation
  {
  }

  /** It is what any HTTP error in reply to Unbind leads to, once its status is stored. */
  lemma FailedUnbindSticks(w: World, e: Event)
    requires Reachable(w) && w.validates && Legal(w, e) && e.Pass? && e.commits.final
    requires Reconcile(w.history[e.from].state, e.inputs, w.retry).call == CallUnbind && e.inputs.unbind.UnbindHttpError?
    ensures Stuck(Next(w, e))
  {
    hide HoldInv, FaithfulInv, SecretInv, ReleasedProperly, Timely, SecretAfter, SendBind, Reconcile, SendUnbind, Later, Follows;
    ReachableInv(w);
    StepKeepsInv(w, e);
    var s := Stored(w);
    var tr := Reconcile(s, e.inputs, w.retry);
    CallsFollowIntents(s, e.inputs, w.retry);
    ReconcileShape(s, e.inputs, w.retry);
    var b := AfterIntent(s, tr);
    UnbindRefused(IDLE.(eject := true, intent := tr.intent), b, e.inputs, w.retry);
    assert !s.orphan;
  }

  /** And it is reachable: delete a credential before its first pass, and let the broker refuse the unbind. */
  lemma StuckIsReachable(i: Instances.Instance)
    requires !i.async && i.classRef.Some? && i.planRef.Some?
    ensures exists w :: Reachable(w) && Stuck(w)
  {
    var w0 := World(0, [Version(CREATED, 0, Creation)], false, 0, 1, true, Broker(false, false, false, false, [], [], false, true), None);
    var w1 := Next(w0, UserDelete(1));
    var x := Inputs(Some(i), Found, true, true, None, BindError, false, true, UnbindHttpError, 0, 0, true, true);
    var e := Pass(1, x, Commits(true, true), SecretAccess(false, NotWritten, Written), false);
    var w2 := Next(w1, e);
    assert Legal(w1, e);
    RunsFrom(w1, e, [], w2);
    RunsFrom(w0, UserDelete(1), [e], w2);
    RunsFrom(w0, UserDelete(1), [], w1);
    assert Reachable(w1) && Reachable(w2);
    FailedUnbindSticks(w1, e);
  }
}
