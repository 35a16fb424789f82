/**
  Whole runs of the credential control loop against the API server, the broker and the secret that
  carries the credential's name. Versions, outdated passes and lost writes are as for instances.
  The broker may act at any later time on a bind request it left unanswered; whether it settles a
  request for good when it answers is left open (`settles`).
 */
module CredentialRuns {
  import opened Common
  import opened Credentials
  import opened CredentialSteps
  import opened CredentialValidation
  import Instances

  datatype Cause =
    | Creation
    | Environment
    | IntentWrite
    | FinalWrite(call: Call, ejected: bool, unbound: bool)

  datatype Version = Version(state: Credential, at: Time, cause: Cause)

  datatype Broker = Broker(
    held: bool,
    bindSent: bool,
    unbindSent: bool,
    unanswered: bool,            // some bind request got no answer
    payloads: seq<Payload>,      // what it returned, in order
    acknowledged: seq<Properties>,
    outdated: bool,              // some bind request came from an outdated version
    settles: bool                // an answered bind request does not act later
  )

  datatype World = World(
    uid: nat,
    history: seq<Version>,
    gone: bool,
    now: Time,
    retry: Time,
    validates: bool,
    broker: Broker,
    secret: Option<Secret>       // the secret stored under this credential's secret name
  )

  function Stored(w: World): Credential
    requires w.history != []
  {
    Last(w.history).state
  }

  predicate Init(w: World) {
    && w.history == [Version(CREATED, w.now, Creation)] && !w.gone
    && w.broker == Broker(false, false, false, false, [], [], false, w.broker.settles)
    && (w.secret.Some? ==> !ControlledBy(w.secret.value, w.uid))
  }

  datatype Commits = Commits(intent: bool, final: bool)

  /** What the secret store did for this pass. */
  datatype SecretAccess = SecretAccess(getFails: bool, inject: SecretWrite, eject: SecretWrite)

  datatype Event =
    | Pass(from: nat, inputs: Inputs, commits: Commits, access: SecretAccess, held: bool)
    | UserUpdate
    | UserDelete(raise: nat)
    | Vanish
    | Tick(now: Time)
    | BrokerActs(held: bool)
    | OthersWrite(secret: Option<Secret>)

  // ---------- Which events can happen ----------

  function Asked(b: Broker, call: Call, x: Inputs): Broker {
    match call
    case CallBind(_) => b.(bindSent := true, unanswered := b.unanswered || x.bind.BindTimeout? || x.bind.BindError?)
    case CallUnbind => b.(unbindSent := true)
    case NoCall => b
  }

  /** Some bind request may still act. */
  predicate MayActLate(b: Broker) {
    b.unanswered || (!b.settles && b.bindSent)
  }

  /** During a call the broker may do what it is asked; at other times only what it has not settled. */
  predicate MayBecome(b: Broker, call: Call, held: bool) {
    && (held && !b.held ==> call.CallBind? || MayActLate(b))
    && (!held && b.held ==> b.unbindSent)
  }

  predicate Honest(call: Call, x: Inputs, held: bool) {
    && (call.CallBind? && x.bind.BindDone? ==> held)
    && (call == CallUnbind && x.unbind.UnbindDone? ==> !held)
  }

  ghost predicate MayCommit(w: World, from: nat, commit: bool, submitted: bool, reported: bool, n: Credential) {
    && (commit ==> submitted && from + 1 == |w.history| && !w.gone && (w.validates ==> Valid(n)))
    && (submitted && reported ==> commit)
  }

  /** The secret after a pass, and what the pass was told about it. */
  function SecretAfter(w: World, tr: Trace, x: Inputs, a: SecretAccess): (Option<Secret>, bool) {
    if tr.eject then Eject(w.secret, a.eject)
    else if tr.inject && x.bind.BindDone? then Inject(w.secret, w.uid, x.bind.payload, a.getFails, a.inject)
    else (w.secret, false)
  }

  ghost predicate LegalPass(w: World, from: nat, x: Inputs, c: Commits, a: SecretAccess, held: bool)
    requires from < |w.history|
  {
    var s := w.history[from].state;
    var tr := Reconcile(s, x, w.retry);
    && GoodInputs(x) && w.now <= x.t0
    && MayCommit(w, from, c.intent, tr.intent.Some?, x.okIntent, AfterIntent(s, tr))
    && MayCommit(w, from, c.final, tr.final.Some?, x.okFinal, AfterFinal(s, tr))
    && MayBecome(Asked(w.broker, tr.call, x), tr.call, held) && Honest(tr.call, x, held)
    && (tr.call == NoCall ==> held == w.broker.held)
    && (tr.eject ==> x.ejected == SecretAfter(w, tr, x, a).1)
    && (tr.inject ==> x.injected == SecretAfter(w, tr, x, a).1)
  }

  /** Others may use the name only as long as no credential controls the secret. */
  predicate Untampered(before: Option<Secret>, after: Option<Secret>, uid: nat) {
    && (before.Some? && ControlledBy(before.value, uid) ==> after == before)
    && (after.Some? && ControlledBy(after.value, uid) ==> after == before)
  }

  ghost predicate Legal(w: World, e: Event)
    requires w.history != []
  {
    match e
    case Pass(from, x, c, a, held) => from < |w.history| && LegalPass(w, from, x, c, a, held)
    case UserUpdate => !w.gone
    case UserDelete(_) => !w.gone && !Stored(w).deleted
    case Vanish => !w.gone && !Stored(w).finalizer
    case Tick(now) => w.now <= now
    case BrokerActs(held) => MayBecome(w.broker, NoCall, held)
    case OthersWrite(secret) => Untampered(w.secret, secret, w.uid)
  }

  // ---------- What they do ----------

  function Answered(b: Broker, newest: bool, call: Call, x: Inputs, held: bool): Broker {
    var done := call.CallBind? && x.bind.BindDone?;
    Asked(b, call, x).(
      held := held,
      payloads := if done then b.payloads + [x.bind.payload] else b.payloads,
      acknowledged := if done then b.acknowledged + [call.properties] else b.acknowledged,
      outdated := b.outdated || (call.CallBind? && !newest))
  }

  function Appended(h: seq<Version>, commit: bool, v: Version): seq<Version> {
    if commit then h + [v] else h
  }

  function FinalCause(tr: Trace, x: Inputs): Cause {
    FinalWrite(tr.call, tr.eject && x.ejected, tr.call == CallUnbind && x.unbind.UnbindDone?)
  }

  function AfterPass(w: World, from: nat, x: Inputs, c: Commits, a: SecretAccess, held: bool): World
    requires from < |w.history|
  {
    var s := w.history[from].state;
    var tr := Reconcile(s, x, w.retry);
    var h1 := Appended(w.history, c.intent, Version(AfterIntent(s, tr), x.t0, IntentWrite));
    var h2 := Appended(h1, c.final, Version(AfterFinal(s, tr), x.t1, FinalCause(tr, x)));
    w.(history := h2, now := x.t1,
       broker := Answered(w.broker, from + 1 == |w.history|, tr.call, x, held),
       secret := SecretAfter(w, tr, x, a).0)
  }

  function Deleted(i: Credential, raise: nat): Credential {
    i.(deleted := true, generation := i.generation + raise)
  }

  function Next(w: World, e: Event): World
    requires w.history != [] && (e.Pass? ==> e.from < |w.history|)
  {
    match e
    case Pass(from, x, c, a, held) => AfterPass(w, from, x, c, a, held)
    case UserUpdate => w.(history := w.history + [Version(PrepareForUpdate(Stored(w), Stored(w)), w.now, Environment)])
    case UserDelete(raise) => w.(history := w.history + [Version(Deleted(Stored(w), raise), w.now, Environment)])
    case Vanish => w.(gone := true)
    case Tick(now) => w.(now := now)
    case BrokerActs(held) => w.(broker := w.broker.(held := held))
    case OthersWrite(secret) => w.(secret := secret)
  }

  ghost predicate Runs(w: World, es: seq<Event>, w': World)
    decreases |es|
  {
    w.history != [] && w'.history != [] &&
    if es == [] then w' == w
    else Legal(w, es[0]) && Runs(Next(w, es[0]), es[1..], w')
  }

  ghost predicate Reachable(w: World) {
    w.history != [] && exists w0, es :: Init(w0) && Runs(w0, es, w)
  }

  lemma RunsFrom(w: World, e: Event, es: seq<Event>, w': World)
    requires w.history != [] && Legal(w, e) && Runs(Next(w, e), es, w')
    ensures Runs(w, [e] + es, w')
  {
    assert ([e] + es)[1..] == es;
  }

  // ---------- The invariant ----------

  ghost predicate Ordered(h: seq<Version>) {
    && h != []
    && (forall i :: 0 <= i < |h| ==> Good(h[i].state))
    && (forall i, j :: 0 <= i < j < |h| ==> Later(h[i].state, h[j].state))
    && (forall i :: 0 < i < |h| ==> Follows(PhaseOf(h[i - 1].state), PhaseOf(h[i].state)))
  }

  /** The finalizer goes only by a confirmed unbind after the secret was ejected, once deletion was requested. */
  ghost predicate ReleasedProperly(h: seq<Version>) {
    forall i :: 0 < i < |h| && h[i - 1].state.finalizer && !h[i].state.finalizer ==>
      h[i].state.deleted && h[i].cause.FinalWrite? && h[i].cause.ejected && h[i].cause.unbound
  }

  /** No reply kept an operation going past its retry window. */
  ghost predicate Timely(h: seq<Version>, retry: Time) {
    forall i :: 0 <= i < |h| && h[i].cause.FinalWrite? && h[i].cause.call != NoCall &&
                h[i].state.operation != NoOperation && h[i].state.start.Some? ==>
      !Instances.Expired(h[i].state.start.value, retry, h[i].at)
  }

  ghost predicate HoldInv(s: Credential, b: Broker) {
    && (b.unbindSent ==> Doomed(s))
    && (IsReady(s) ==> b.held)
    && (!s.finalizer && !MayActLate(b) && !b.outdated ==> !b.held)
  }

  /** Some version was binding, and deletion was not yet requested. */
  ghost predicate WasBinding(h: seq<Version>) {
    exists i :: 0 <= i < |h| && PhaseOf(h[i].state) == Binding && !h[i].state.deleted
  }

  /** Bind is sent only from such a version, and the broker acts only on what was sent. */
  ghost predicate BoundInv(h: seq<Version>, b: Broker) {
    && (b.bindSent ==> WasBinding(h))
    && (b.held || b.unanswered ==> b.bindSent)
  }

  /** The external properties are ones the broker acknowledged; the latest, if no request was outdated. */
  ghost predicate FaithfulInv(s: Credential, b: Broker) {
    IsReady(s) && s.external.Some? ==>
      && s.external.value in b.acknowledged
      && (!b.outdated ==> b.acknowledged != [] && Last(b.acknowledged) == s.external.value)
  }

  /** The secret carries what the broker returned: the latest payload, if no request was outdated. */
  ghost predicate Carries(secret: Option<Secret>, uid: nat, b: Broker) {
    && secret.Some? && ControlledBy(secret.value, uid)
    && (exists p :: p in b.payloads && SerializeAll(p) == Some(secret.value.data))
    && (!b.outdated ==> b.payloads != [] && SerializeAll(Last(b.payloads)) == Some(secret.value.data))
  }

  ghost predicate SecretInv(w: World)
    requires w.history != []
  {
    IsReady(Stored(w)) && !Stored(w).deleted ==> Carries(w.secret, w.uid, w.broker)
  }

  ghost predicate Inv(w: World) {
    && Ordered(w.history) && ReleasedProperly(w.history) && Timely(w.history, w.retry)
    && HoldInv(Stored(w), w.broker) && BoundInv(w.history, w.broker) && FaithfulInv(Stored(w), w.broker) && SecretInv(w)
    && (w.validates ==> forall i :: 0 <= i < |w.history| ==> Valid(w.history[i].state))
  }

  lemma AppendKeepsOrder(h: seq<Version>, v: Version)
    requires Ordered(h) && Good(v.state) && Succeeds(Last(h).state, v.state)
    ensures Ordered(h + [v])
  {
    hide Good, Later, Follows, PhaseOf;
    forall i | 0 <= i < |h| - 1
      ensures Later(h[i].state, v.state)
    {
      LaterIsTransitive(h[i].state, Last(h).state, v.state);
    }
  }

  // ---------- Each part of a pass keeps it ----------

  function HistoryAtCall(w: World, from: nat, x: Inputs, c: Commits): seq<Version>
    requires from < |w.history|
  {
    var s := w.history[from].state;
    Appended(w.history, c.intent, Version(AfterIntent(s, Reconcile(s, x, w.retry)), x.t0, IntentWrite))
  }

  lemma PassKeepsOrder(w: World, from: nat, x: Inputs, c: Commits, a: SecretAccess, held: bool)
    requires Inv(w) && from < |w.history| && LegalPass(w, from, x, c, a, held)
    ensures var h := HistoryAtCall(w, from, x, c);
      var tr := Reconcile(w.history[from].state, x, w.retry);
      var k := if |h| > |w.history| then |h| - 1 else from;
      && Ordered(h) && Ordered(AfterPass(w, from, x, c, a, held).history)
      && (tr.call != NoCall || tr.final.Some? ==> h[k].state == AfterIntent(w.history[from].state, tr))
  {
    hide Reconcile, Good, Later, Follows, Valid, HoldInv, SecretInv, FaithfulInv, ReleasedProperly;
    var s := w.history[from].state;
    var tr := Reconcile(s, x, w.retry);
    ReconcileAdvances(s, x, w.retry);
    CallsFollowIntents(s, x, w.retry);
    if c.intent { AppendKeepsOrder(w.history, Version(AfterIntent(s, tr), x.t0, IntentWrite)); }
    if c.final {
      AppendKeepsOrder(HistoryAtCall(w, from, x, c), Version(AfterFinal(s, tr), x.t1, FinalCause(tr, x)));
    }
  }

  lemma CallKeepsHold(a: Credential, last: Credential, b: Broker, newest: bool, call: Call, x: Inputs, held: bool)
    requires HoldInv(last, b) && (a == last || Later(a, last)) && (newest ==> a == last)
    requires call.CallBind? ==> PhaseOf(a) == Binding && !a.deleted
    requires call == CallUnbind ==> Doomed(a)
    requires MayBecome(Asked(b, call, x), call, held) && (call == NoCall ==> held == b.held)
    ensures HoldInv(last, Answered(b, newest, call, x, held))
  {
  }

  lemma FinalKeepsHold(a: Credential, n: Credential, b: Broker, tr: Trace, x: Inputs, retry: Time, held: bool)
    requires Good(a) && Good(n) && Succeeds(a, n) && Accounts(tr, x, retry, a, n) && HoldInv(a, b) && b.held == held
    requires Honest(tr.call, x, held)
    requires tr.call.CallBind? ==> !Doomed(a)
    ensures HoldInv(n, b)
  {
  }

  /** The intent and the call of a pass, before its last write. */
  lemma CallPartKeepsHold(w: World, from: nat, x: Inputs, c: Commits, a: SecretAccess, held: bool)
    requires Inv(w) && from < |w.history| && LegalPass(w, from, x, c, a, held)
    ensures var h := HistoryAtCall(w, from, x, c);
      h != [] && HoldInv(Last(h).state, AfterPass(w, from, x, c, a, held).broker)
  {
    hide Reconcile, Good, Later, Follows, Valid, HoldInv, SecretInv, FaithfulInv, ReleasedProperly, SecretAfter, Timely, PhaseOf, BoundInv;
    var s := w.history[from].state;
    var tr := Reconcile(s, x, w.retry);
    var h := HistoryAtCall(w, from, x, c);
    var k := if |h| > |w.history| then |h| - 1 else from;
    PassKeepsOrder(w, from, x, c, a, held);
    CallsFollowIntents(s, x, w.retry);
    ReconcileAdvances(s, x, w.retry);
    IntentKeepsHold(s, Last(h).state, w.broker, w, c, tr);
    CallKeepsHold(if tr.call == NoCall then Last(h).state else h[k].state, Last(h).state, w.broker,
                  from + 1 == |w.history|, tr.call, x, held);
  }

  lemma PassKeepsHold(w: World, from: nat, x: Inputs, c: Commits, a: SecretAccess, held: bool)
    requires Inv(w) && from < |w.history| && LegalPass(w, from, x, c, a, held)
    ensures var w' := AfterPass(w, from, x, c, a, held);
      HoldInv(Stored(w'), w'.broker)
  {
    hide Reconcile, Good, Later, Follows, Valid, HoldInv, SecretInv, FaithfulInv, ReleasedProperly, SecretAfter, Timely, PhaseOf, BoundInv;
    var s := w.history[from].state;
    CallPartKeepsHold(w, from, x, c, a, held);
    if c.final {
      PassKeepsOrder(w, from, x, c, a, held);
      CallsFollowIntents(s, x, w.retry);
      ReconcileAdvances(s, x, w.retry);
      FinalAccounts(s, x, w.retry);
      var w' := AfterPass(w, from, x, c, a, held);
      FinalKeepsHold(Last(HistoryAtCall(w, from, x, c)).state, Stored(w'), w'.broker, Reconcile(s, x, w.retry), x, w.retry, held);
    }
  }

  lemma WasBindingGrows(h: seq<Version>, h': seq<Version>)
    requires h <= h' && WasBinding(h)
    ensures WasBinding(h')
  {
    var i :| 0 <= i < |h| && PhaseOf(h[i].state) == Binding && !h[i].state.deleted;
    assert h'[i] == h[i];
  }

  lemma PassKeepsBound(w: World, from: nat, x: Inputs, c: Commits, a: SecretAccess, held: bool)
    requires Inv(w) && from < |w.history| && LegalPass(w, from, x, c, a, held)
    ensures var w' := AfterPass(w, from, x, c, a, held);
      BoundInv(w'.history, w'.broker)
  {
    hide Reconcile, Good, Later, Follows, Valid, HoldInv, SecretInv, FaithfulInv, ReleasedProperly, SecretAfter, Timely, PhaseOf, Doomed;
    var s := w.history[from].state;
    var h := HistoryAtCall(w, from, x, c);
    var w' := AfterPass(w, from, x, c, a, held);
    PassKeepsOrder(w, from, x, c, a, held);
    CallsFollowIntents(s, x, w.retry);
    assert w.history <= h <= w'.history;
    if WasBinding(w.history) {
      WasBindingGrows(w.history, w'.history);
    } else if Reconcile(s, x, w.retry).call.CallBind? {
      var k := if |h| > |w.history| then |h| - 1 else from;
      assert PhaseOf(h[k].state) == Binding && !h[k].state.deleted;
      WasBindingGrows(h, w'.history);
    }
  }

  lemma PassKeepsFaith(w: World, from: nat, x: Inputs, c: Commits, a: SecretAccess, held: bool)
    requires Inv(w) && from < |w.history| && LegalPass(w, from, x, c, a, held)
    ensures var w' := AfterPass(w, from, x, c, a, held);
      FaithfulInv(Stored(w'), w'.broker)
  {
    hide Reconcile, Later, Follows, Valid, HoldInv, SecretInv, ReleasedProperly, SecretAfter;
    CallsFollowIntents(w.history[from].state, x, w.retry);
    FinalAccounts(w.history[from].state, x, w.retry);
  }

  lemma IntentKeepsHold(s: Credential, n: Credential, b: Broker, w: World, c: Commits, tr: Trace)
    requires w.history != [] && HoldInv(Stored(w), b)
    requires if c.intent then n == AfterIntent(s, tr) && s == Stored(w) && Succeeds(s, n) && !IsReady(n) && n.finalizer
             else n == Stored(w)
    ensures HoldInv(n, b)
  {
  }

  lemma InjectedCarries(secret: Option<Secret>, uid: nat, p: Payload, getFails: bool, write: SecretWrite)
    ensures var r := Inject(secret, uid, p, getFails, write);
      && (r.0 == secret || (r.0.Some? && ControlledBy(r.0.value, uid) && SerializeAll(p) == Some(r.0.value.data)))
      && (r.1 ==> r.0.Some? && ControlledBy(r.0.value, uid) && SerializeAll(p) == Some(r.0.value.data))
      && (secret.Some? && !ControlledBy(secret.value, uid) ==> r == (secret, false))
  {
  }

  /** The stored version is ready and was so before the pass: only an outdated bind can have touched the secret. */
  lemma PassKeepsSecretOfReady(w: World, from: nat, x: Inputs, c: Commits, a: SecretAccess, held: bool)
    requires Inv(w) && from < |w.history| && LegalPass(w, from, x, c, a, held)
    requires IsReady(Stored(w)) && !Stored(w).deleted
    ensures var w' := AfterPass(w, from, x, c, a, held);
      Carries(w'.secret, w'.uid, w'.broker)
  {
    hide Reconcile, Follows, Valid, HoldInv, FaithfulInv, ReleasedProperly, SerializeAll, ControlledBy;
    var s := w.history[from].state;
    var tr := Reconcile(s, x, w.retry);
    var w' := AfterPass(w, from, x, c, a, held);
    CallsFollowIntents(s, x, w.retry);
    FinalAccounts(s, x, w.retry);
    assert from < |w.history| - 1 ==> Later(s, Stored(w));
    assert !tr.eject;
    assert forall p :: p in w.broker.payloads ==> p in w'.broker.payloads;
    if tr.inject {
      assert from + 1 < |w.history|;
      InjectedCarries(w.secret, w.uid, x.bind.payload, a.getFails, a.inject);
      assert x.bind.payload in w'.broker.payloads;
    }
  }

  lemma PassKeepsSecret(w: World, from: nat, x: Inputs, c: Commits, a: SecretAccess, held: bool)
    requires Inv(w) && from < |w.history| && LegalPass(w, from, x, c, a, held)
    ensures SecretInv(AfterPass(w, from, x, c, a, held))
  {
    hide Reconcile, Follows, Valid, HoldInv, FaithfulInv, ReleasedProperly, SerializeAll, ControlledBy;
    var s := w.history[from].state;
    var tr := Reconcile(s, x, w.retry);
    var w' := AfterPass(w, from, x, c, a, held);
    if IsReady(Stored(w)) && !Stored(w).deleted {
      PassKeepsSecretOfReady(w, from, x, c, a, held);
    } else {
      CallsFollowIntents(s, x, w.retry);
      FinalAccounts(s, x, w.retry);
      ReconcileAdvances(s, x, w.retry);
      if c.final && IsReady(Stored(w')) && !Stored(w').deleted {
        assert tr.call.CallBind? && x.bind.BindDone? && x.injected;
        BindInjects(s, x, w.retry);
        InjectedCarries(w.secret, w.uid, x.bind.payload, a.getFails, a.inject);
        assert x.bind.payload in w'.broker.payloads;
      }
    }
  }

  lemma BindInjects(s: Credential, x: Inputs, retry: Time)
    requires Good(s) && GoodInputs(x)
    ensures var tr := Reconcile(s, x, retry);
      tr.call.CallBind? && x.bind.BindDone? ==> tr.inject && !tr.eject
  {
    hide Reconcile, SendBind, SendUnbind;
    ReconcileShape(s, x, retry);
    var tr := Reconcile(s, x, retry);
    if tr.call.CallBind? {
      BindReplies(IDLE.(intent := tr.intent), AfterIntent(s, tr).(inProgress := x.properties), x, retry);
    }
  }

  lemma GoodAt(h: seq<Version>, i: nat)
    requires Ordered(h) && i < |h|
    ensures Good(h[i].state)
  {
  }

  /** One more version, released or kept going only as it should be. */
  lemma AppendKeepsRelease(h: seq<Version>, v: Version, retry: Time)
    requires h != [] && ReleasedProperly(h) && Timely(h, retry)
    requires Last(h).state.finalizer && !v.state.finalizer ==>
               v.state.deleted && v.cause.FinalWrite? && v.cause.ejected && v.cause.unbound
    requires v.cause.FinalWrite? && v.cause.call != NoCall && v.state.operation != NoOperation && v.state.start.Some? ==>
               !Instances.Expired(v.state.start.value, retry, v.at)
    ensures ReleasedProperly(h + [v]) && Timely(h + [v], retry)
  {
  }

  lemma PassKeepsRelease(w: World, from: nat, x: Inputs, c: Commits, a: SecretAccess, held: bool)
    requires Inv(w) && from < |w.history| && LegalPass(w, from, x, c, a, held)
    ensures var h := AfterPass(w, from, x, c, a, held).history;
      ReleasedProperly(h) && Timely(h, w.retry)
  {
    hide Reconcile, Good, Valid, HoldInv, FaithfulInv, SecretInv, SecretAfter, Doomed, Ordered, ReleasedProperly, Timely;
    var s := w.history[from].state;
    var tr := Reconcile(s, x, w.retry);
    GoodAt(w.history, from);
    CallsFollowIntents(s, x, w.retry);
    FinalAccounts(s, x, w.retry);
    var h := HistoryAtCall(w, from, x, c);
    if c.intent { AppendKeepsRelease(w.history, Version(AfterIntent(s, tr), x.t0, IntentWrite), w.retry); }
    if c.final { AppendKeepsRelease(h, Version(AfterFinal(s, tr), x.t1, FinalCause(tr, x)), w.retry); }
  }

  lemma PassKeepsInv(w: World, from: nat, x: Inputs, c: Commits, a: SecretAccess, held: bool)
    requires Inv(w) && from < |w.history| && LegalPass(w, from, x, c, a, held)
    ensures Inv(AfterPass(w, from, x, c, a, held))
  {
    hide Reconcile, Ordered, Valid, HoldInv, BoundInv, FaithfulInv, SecretInv, ReleasedProperly, Timely, SecretAfter;
    PassKeepsOrder(w, from, x, c, a, held);
    PassKeepsHold(w, from, x, c, a, held);
    PassKeepsBound(w, from, x, c, a, held);
    PassKeepsFaith(w, from, x, c, a, held);
    PassKeepsSecret(w, from, x, c, a, held);
    PassKeepsRelease(w, from, x, c, a, held);
  }

  lemma EditedIsGood(s: Credential, n: Credential)
    requires Good(s) && (n == s || (!s.deleted && exists raise :: n == Deleted(s, raise)))
    ensures Good(n) && Succeeds(s, n) && (Valid(s) ==> Valid(n)) && n.finalizer == s.finalizer
    ensures IsReady(n) == IsReady(s) && n.external == s.external && (!n.deleted ==> !s.deleted)
  {
  }

  lemma EditedIsDoomed(s: Credential, n: Credential)
    requires n == s || (!s.deleted && exists raise :: n == Deleted(s, raise))
    ensures (Doomed(s) ==> Doomed(n)) && IsReady(n) == IsReady(s) && n.finalizer == s.finalizer
  {
  }

  lemma EditKeepsFacts(w: World, n: Credential, w': World)
    requires w.history != [] && (n == Stored(w) || (!Stored(w).deleted && exists raise :: n == Deleted(Stored(w), raise)))
    requires w' == w.(history := w.history + [Version(n, w.now, Environment)])
    requires HoldInv(Stored(w), w.broker) && FaithfulInv(Stored(w), w.broker) && BoundInv(w.history, w.broker) && SecretInv(w)
    ensures HoldInv(n, w.broker) && FaithfulInv(n, w.broker) && BoundInv(w'.history, w.broker) && SecretInv(w')
  {
    hide Carries, WasBinding, Good, PhaseOf;
    EditedIsDoomed(Stored(w), n);
    if WasBinding(w.history) { WasBindingGrows(w.history, w'.history); }
  }

  lemma EditKeepsInv(w: World, n: Credential)
    requires Inv(w) && (n == Stored(w) || (!Stored(w).deleted && exists raise :: n == Deleted(Stored(w), raise)))
    ensures Inv(w.(history := w.history + [Version(n, w.now, Environment)]))
  {
    assert w.history != [];
    hide Good, Valid, Later, Ordered, ReleasedProperly, Timely, HoldInv, FaithfulInv, BoundInv, SecretInv;
    var v := Version(n, w.now, Environment);
    EditKeepsFacts(w, n, w.(history := w.history + [v]));
    GoodAt(w.history, |w.history| - 1);
    EditedIsGood(Stored(w), n);
    AppendKeepsOrder(w.history, v);
    AppendKeepsRelease(w.history, v, w.retry);
  }

  lemma StepKeepsInv(w: World, e: Event)
    requires Inv(w) && Legal(w, e)
    ensures Inv(Next(w, e))
  {
    match e
    case Pass(from, x, c, a, held) => PassKeepsInv(w, from, x, c, a, held);
    case UserUpdate => EditKeepsInv(w, Stored(w));
    case UserDelete(raise) => EditKeepsInv(w, Deleted(Stored(w), raise));
    case Vanish =>
    case Tick(_) =>
    case BrokerActs(_) =>
    case OthersWrite(_) =>
  }

  lemma {:induction false} RunKeepsInv(w: World, es: seq<Event>, w': World)
    requires Inv(w) && Runs(w, es, w')
    ensures Inv(w')
    decreases |es|
  {
    if es != [] {
      StepKeepsInv(w, es[0]);
      RunKeepsInv(Next(w, es[0]), es[1..], w');
    }
  }

  lemma InitInv(w: World)
    requires Init(w)
    ensures Inv(w)
  {
  }

  /** Every reachable world satisfies the invariant. */
  lemma ReachableInv(w: World)
    requires Reachable(w)
    ensures Inv(w)
  {
    hide Runs, Inv;
    var w0, es :| Init(w0) && Runs(w0, es, w);
    InitInv(w0);
    RunKeepsInv(w0, es, w);
  }
}
