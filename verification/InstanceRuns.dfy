/**
  Whole runs of the instance control loop against the API server and the broker.

  The server keeps every committed version in order. A pass may start from any of them, since the
  informer cache may lag; a write commits only over the newest version. Each write may also be lost,
  or commit without the controller hearing of it. The broker may act on a request at any later
  time, whatever it replied.
 */
module InstanceRuns {
  import opened Common
  import opened Instances
  import opened InstanceSteps
  import opened InstanceCalls
  import opened InstanceValidation

  /** Why a version was written. */
  datatype Cause =
    | Creation
    | Environment
    | ReferencesWrite
    | IntentWrite
    | FinalWrite(call: Call, accepted: bool, confirms: bool)

  datatype Version = Version(state: Instance, at: Time, cause: Cause)

  /** The broker's side of one instance, with a record of what was asked and answered. */
  datatype Broker = Broker(
    held: bool,
    provisionSent: bool,
    deprovisionSent: bool,
    acknowledged: seq<Properties>,   // the provision requests it said yes to, in order
    confirmed: bool,                 // it confirmed a removal
    outdated: bool                   // some provision request came from an outdated version
  )

  datatype World = World(
    history: seq<Version>,
    gone: bool,          // the object was removed from the store
    now: Time,
    retry: Time,         // reconciliationRetryDuration
    validates: bool,     // whether the server enforces status validation
    broker: Broker
  )

  function Stored(w: World): Instance
    requires w.history != []
  {
    Last(w.history).state
  }

  predicate Init(w: World) {
    && w.history == [Version(CREATED, w.now, Creation)] && !w.gone
    && w.broker == Broker(false, false, false, [], false, false)
  }

  /** Which writes of a pass reached the store. */
  datatype Commits = Commits(references: bool, intent: bool, final: bool)

  datatype Event =
    | Pass(from: nat, inputs: Inputs, commits: Commits, held: bool)
    | UserUpdate
    | UserDelete(raise: nat)
    | Vanish
    | Tick(now: Time)
    | BrokerActs(held: bool)

  // ---------- Which events can happen ----------

  /** The broker comes to hold the instance only if asked to, and lets go of it only if asked to. */
  predicate MayBecome(b: Broker, held: bool) {
    (held && !b.held ==> b.provisionSent) && (!held && b.held ==> b.deprovisionSent)
  }

  /** A broker that says the instance exists, or that its only operation succeeded, does hold it. */
  predicate Honest(b: Broker, call: Call, x: Inputs, held: bool) {
    && (call.CallProvision? && x.provision.ProvisionDone? ==> held)
    && (call == CallPoll && x.poll.PollSucceeded? && !b.deprovisionSent ==> held)
  }

  /** A write commits only if there was one, over the newest version, and if the server accepts it. */
  ghost predicate MayCommit(w: World, from: nat, commit: bool, submitted: bool, reported: bool, n: Instance) {
    && (commit ==> submitted && from + 1 == |w.history| && !w.gone && (w.validates ==> Valid(n)))
    && (submitted && reported ==> commit)
  }

  ghost predicate LegalPass(w: World, from: nat, x: Inputs, c: Commits, held: bool)
    requires from < |w.history|
  {
    var s := w.history[from].state;
    var tr := Reconcile(s, x, w.retry);
    && GoodInputs(x) && w.now <= x.t0
    && MayCommit(w, from, c.references, tr.references.Some?, x.okReferences, AfterReferences(s, tr))
    && MayCommit(w, from, c.intent, tr.intent.Some?, x.okIntent, AfterIntent(s, tr))
    && MayCommit(w, from, c.final, tr.final.Some?, x.okFinal, AfterFinal(s, tr))
    && MayBecome(Asked(w.broker, tr.call), held) && Honest(w.broker, tr.call, x, held)
    && (tr.call == NoCall ==> held == w.broker.held)
  }

  ghost predicate Legal(w: World, e: Event)
    requires w.history != []
  {
    match e
    case Pass(from, x, c, held) => from < |w.history| && LegalPass(w, from, x, c, held)
    case UserUpdate => !w.gone
    case UserDelete(_) => !w.gone && !Stored(w).deleted
    case Vanish => !w.gone && !Stored(w).finalizer
    case Tick(now) => w.now <= now
    case BrokerActs(held) => MayBecome(w.broker, held)
  }

  // ---------- What they do ----------

  function Asked(b: Broker, call: Call): Broker {
    match call
    case CallProvision(_) => b.(provisionSent := true)
    case CallDeprovision => b.(deprovisionSent := true)
    case _ => b
  }

  function Answered(b: Broker, s: Instance, newest: bool, call: Call, x: Inputs, held: bool): Broker {
    var acknowledged :=
      if call.CallProvision? && Acknowledged(x) then b.acknowledged + [call.properties] else b.acknowledged;
    Asked(b, call).(
      held := held,
      acknowledged := acknowledged,
      confirmed := b.confirmed || ConfirmsRemoval(s, call, x),
      outdated := b.outdated || (call.CallProvision? && !newest))
  }

  function FinalCause(s: Instance, tr: Trace, x: Inputs): Cause {
    FinalWrite(tr.call, Accepts(tr.call, x), ConfirmsRemoval(s, tr.call, x))
  }

  function Appended(h: seq<Version>, commit: bool, v: Version): seq<Version> {
    if commit then h + [v] else h
  }

  function AfterPass(w: World, from: nat, x: Inputs, c: Commits, held: bool): World
    requires from < |w.history|
  {
    var s := w.history[from].state;
    var tr := Reconcile(s, x, w.retry);
    var h1 := Appended(w.history, c.references, Version(AfterReferences(s, tr), x.t0, ReferencesWrite));
    var h2 := Appended(h1, c.intent, Version(AfterIntent(s, tr), x.t0, IntentWrite));
    var h3 := Appended(h2, c.final, Version(AfterFinal(s, tr), x.t1, FinalCause(s, tr, x)));
    w.(history := h3, now := x.t1,
       broker := Answered(w.broker, s, from + 1 == |w.history|, tr.call, x, held))
  }

  /** A delete request sets the deletion timestamp and may raise the generation. */
  function Deleted(i: Instance, raise: nat): Instance {
    i.(deleted := true, generation := i.generation + raise)
  }

  function Next(w: World, e: Event): World
    requires w.history != [] && (e.Pass? ==> e.from < |w.history|)
  {
    match e
    case Pass(from, x, c, held) => AfterPass(w, from, x, c, held)
    case UserUpdate => w.(history := w.history + [Version(PrepareForUpdate(Stored(w), Stored(w)), w.now, Environment)])
    case UserDelete(raise) => w.(history := w.history + [Version(Deleted(Stored(w), raise), w.now, Environment)])
    case Vanish => w.(gone := true)
    case Tick(now) => w.(now := now)
    case BrokerActs(held) => w.(broker := w.broker.(held := held))
  }

  /** `w'` is reached from `w` by these events, each of them possible when it happens. */
  ghost predicate Runs(w: World, es: seq<Event>, w': World)
    decreases |es|
  {
    w.history != [] && w'.history != [] &&
    if es == [] then w' == w
    else Legal(w, es[0]) && Runs(Next(w, es[0]), es[1..], w')
  }

  ghost predicate Reachable(w: World) {
    w.history != [] && exists w0, es :: Init(w0) && Runs(w0, es, w)
  }

  /** One more event in front of a run. */
  lemma RunsFrom(w: World, e: Event, es: seq<Event>, w': World)
    requires w.history != [] && Legal(w, e) && Runs(Next(w, e), es, w')
    ensures Runs(w, [e] + es, w')
  {
    assert ([e] + es)[1..] == es;
  }

  // ---------- The invariant ----------

  /** Every version is good, and every later one is later. */
  ghost predicate Ordered(h: seq<Version>) {
    && h != []
    && (forall i :: 0 <= i < |h| ==> Good(h[i].state))
    && (forall i, j :: 0 <= i < j < |h| ==> Later(h[i].state, h[j].state))
    && (forall i :: 0 < i < |h| ==> Follows(PhaseOf(h[i - 1].state), PhaseOf(h[i].state)))
  }

  lemma AppendKeepsOrder(h: seq<Version>, v: Version)
    requires Ordered(h) && Good(v.state) && Succeeds(Last(h).state, v.state)
    ensures Ordered(h + [v])
  {
    hide Good, Later, Follows, PhaseOf;
    forall i | 0 <= i < |h| - 1
      ensures Later(h[i].state, v.state)
    {
      LaterIsTransitive(h[i].state, Last(h).state, v.state);
    }
  }

  /** A pass that commits anything starts from the newest version, so its writes keep the order. */
  lemma PassKeepsOrder(w: World, from: nat, x: Inputs, c: Commits, held: bool)
    requires Ordered(w.history) && from < |w.history| && LegalPass(w, from, x, c, held)
    ensures Ordered(AfterPass(w, from, x, c, held).history)
  {
    hide Reconcile, Good, Succeeds, Later, Follows, PhaseOf, Valid;
    var s := w.history[from].state;
    var tr := Reconcile(s, x, w.retry);
    ReconcileAdvances(s, x, w.retry);
    WritesAreOrdered(s, x, w.retry);
    var v1 := Version(AfterReferences(s, tr), x.t0, ReferencesWrite);
    var h1 := Appended(w.history, c.references, v1);
    if c.references { AppendKeepsOrder(w.history, v1); }
    var v2 := Version(AfterIntent(s, tr), x.t0, IntentWrite);
    var h2 := Appended(h1, c.intent, v2);
    if c.intent { AppendKeepsOrder(h1, v2); }
    if c.final { AppendKeepsOrder(h2, Version(AfterFinal(s, tr), x.t1, FinalCause(s, tr, x))); }
  }

  /** Some version was ready. */
  ghost predicate WasReady(h: seq<Version>) {
    exists i :: 0 <= i < |h| && IsReady(h[i].state)
  }

  /** The intent to deprovision was committed. */
  ghost predicate Intended(h: seq<Version>) {
    exists i :: 0 <= i < |h| && h[i].state.operation == Deprovision
  }

  /** Orphan mitigation was committed. */
  ghost predicate Mitigated(h: seq<Version>) {
    exists i :: 0 <= i < |h| && h[i].state.orphan
  }

  /** The recorded properties are ones the broker acknowledged; the latest, if no request was outdated. */
  ghost predicate Faithful(p: Properties, b: Broker) {
    && p in b.acknowledged
    && (!b.outdated ==> b.acknowledged != [] && Last(b.acknowledged) == p)
  }

  /** The stored version is held by the broker once provisioned, until a removal is on record. */
  ghost predicate HoldInv(s: Instance, b: Broker) {
    && (b.deprovisionSent ==> Rank(s) >= RankOf(Orphaned))
    && (PhaseOf(s) in {Ready, Unready} ==> b.held)
    && (PhaseOf(s) == AsyncDeprovisioning ==> b.deprovisionSent)
  }

  ghost predicate FaithfulInv(s: Instance, b: Broker) {
    && (PhaseOf(s) == AsyncProvisioning && s.inProgress.Some? ==> Faithful(s.inProgress.value, b))
    && (s.external.Some? ==> Faithful(s.external.value, b))
  }

  /** An instance that was ready stays so or is on its way out, by way of a recorded and sent removal. */
  ghost predicate LifeInv(h: seq<Version>, b: Broker)
    requires h != []
  {
    var s := Last(h).state;
    && (WasReady(h) ==> PhaseOf(s) in {Ready, Unready} || Intended(h))
    && (Intended(h) ==> Rank(s) >= RankOf(Deprovisioning))
    && (Intended(h) && PhaseOf(s) in {Failed, Released} ==> b.deprovisionSent)
    && (Intended(h) && PhaseOf(s) == Released ==> b.confirmed || IsFailed(s))
    && MitigationInv(h, s, b)
  }

  /** Deprovision is sent only for what is on record, and a mitigation ends only by way of it. */
  ghost predicate MitigationInv(h: seq<Version>, s: Instance, b: Broker) {
    && (b.deprovisionSent ==> Intended(h) || Mitigated(h))
    && (Mitigated(h) ==> Rank(s) >= RankOf(Orphaned))
    && (Mitigated(h) && PhaseOf(s) in {AsyncOrphaned, Failed, Released} ==> b.deprovisionSent)
  }

  ghost predicate BrokerInv(h: seq<Version>, b: Broker)
    requires h != []
  {
    HoldInv(Last(h).state, b) && FaithfulInv(Last(h).state, b) && LifeInv(h, b)
  }

  /** No reply but an acceptance kept an operation going past its window; confirmed removals forgot the properties. */
  ghost predicate Timely(h: seq<Version>, retry: Time) {
    forall i :: 0 <= i < |h| && h[i].cause.FinalWrite? ==>
      var v := h[i];
      && (v.cause.call != NoCall && !v.cause.accepted && v.state.operation != NoOperation && v.state.start.Some? ==>
            !Expired(v.state.start.value, retry, v.at))
      && (v.cause.confirms ==> v.state.external.None?)
  }

  ghost predicate Inv(w: World) {
    && Ordered(w.history)
    && BrokerInv(w.history, w.broker)
    && Timely(w.history, w.retry)
    && (w.validates ==> forall i :: 0 <= i < |w.history| ==> Valid(w.history[i].state))
  }

  // ---------- Each part of a pass keeps it ----------

  /** Appending a version extends both histories of facts. */
  lemma AppendedFacts(h: seq<Version>, v: Version)
    ensures WasReady(h + [v]) <==> WasReady(h) || IsReady(v.state)
    ensures Intended(h + [v]) <==> Intended(h) || v.state.operation == Deprovision
    ensures Mitigated(h + [v]) <==> Mitigated(h) || v.state.orphan
  {
    var h' := h + [v];
    assert h'[|h|] == v;
    assert forall i :: 0 <= i < |h| ==> h'[i] == h[i];
  }

  /** A write that no call precedes. */
  lemma WriteKeepsBroker(h: seq<Version>, v: Version, b: Broker)
    requires Ordered(h) && BrokerInv(h, b)
    requires Good(v.state) && Succeeds(Last(h).state, v.state)
    requires PhaseOf(v.state) != PhaseOf(Last(h).state) ==>
               PhaseOf(v.state) in {Provisioning, Unready, Deprovisioning} ||
               (PhaseOf(v.state) == Released && PhaseOf(Last(h).state) in {New, Provisioning, Failed})
    requires PhaseOf(v.state) == AsyncProvisioning ==> v.state.inProgress == Last(h).state.inProgress
    requires v.state.external == Last(h).state.external || v.state.external.None?
    ensures BrokerInv(h + [v], b)
  {
    AppendedFacts(h, v);
  }

  /** A version in force at a removal call shows in the history. */
  lemma AskedWasRecorded(h: seq<Version>, k: nat)
    requires Ordered(h) && k < |h|
    ensures PhaseOf(h[k].state) in {Orphaned, Deprovisioning} ==> Intended(h) || Mitigated(h)
  {
  }

  /** A call made while version `k` was in force, whatever becomes of the reply. */
  lemma CallKeepsBroker(h: seq<Version>, k: nat, b: Broker, s: Instance, newest: bool, call: Call, x: Inputs, held: bool)
    requires Ordered(h) && BrokerInv(h, b) && k < |h|
    requires newest ==> k == |h| - 1
    requires call == CallDeprovision ==> PhaseOf(h[k].state) in {Orphaned, Deprovisioning}
    requires call.CallProvision? ==> PhaseOf(h[k].state) == Provisioning
    requires MayBecome(Asked(b, call), held)
    ensures BrokerInv(h, Answered(b, s, newest, call, x, held))
  {
    assert k < |h| - 1 ==> Rank(h[k].state) <= Rank(Last(h).state);
    AskedWasRecorded(h, k);
    hide Later, Follows, Good, Ordered, Intended, Mitigated, WasReady;
  }

  // The last write of a pass, over the version in force at its call.

  lemma FinalKeepsHold(a: Instance, n: Instance, b0: Broker, b: Broker, s: Instance, call: Call, x: Inputs, held: bool)
    requires HoldInv(a, b0) && HoldInv(a, b)
    requires Good(a) && Good(n) && Succeeds(a, n) && Accounts(s, call, x, a, n)
    requires Honest(b0, call, x, held) && b == Answered(b0, s, true, call, x, held)
    ensures HoldInv(n, b)
  {
  }

  lemma FinalKeepsFaith(a: Instance, n: Instance, b0: Broker, b: Broker, s: Instance, call: Call, x: Inputs, held: bool)
    requires FaithfulInv(a, b) && Accounts(s, call, x, a, n)
    requires b == Answered(b0, s, true, call, x, held)
    ensures FaithfulInv(n, b)
  {
    hide PhaseOf;
  }

  lemma FinalKeepsLife(h: seq<Version>, v: Version, b0: Broker, b: Broker, s: Instance, call: Call, x: Inputs, held: bool)
    requires h != [] && LifeInv(h, b) && HoldInv(Last(h).state, b)
    requires Good(Last(h).state) && Good(v.state) && Succeeds(Last(h).state, v.state)
    requires Accounts(s, call, x, Last(h).state, v.state)
    requires b == Answered(b0, s, true, call, x, held)
    ensures LifeInv(h + [v], b)
  {
    AppendedFacts(h, v);
  }

  /** The history at the time of the call, and the index of the version then in force. */
  function HistoryAtCall(w: World, from: nat, x: Inputs, c: Commits): seq<Version>
    requires from < |w.history|
  {
    var s := w.history[from].state;
    var tr := Reconcile(s, x, w.retry);
    var h1 := Appended(w.history, c.references, Version(AfterReferences(s, tr), x.t0, ReferencesWrite));
    Appended(h1, c.intent, Version(AfterIntent(s, tr), x.t0, IntentWrite))
  }

  lemma EarlyWritesKeepBroker(w: World, from: nat, x: Inputs, c: Commits, held: bool)
    requires Inv(w) && from < |w.history| && LegalPass(w, from, x, c, held)
    ensures var h2 := HistoryAtCall(w, from, x, c);
      var tr := Reconcile(w.history[from].state, x, w.retry);
      var k := if |h2| > |w.history| then |h2| - 1 else from;
      && Ordered(h2) && BrokerInv(h2, w.broker)
      && (tr.call != NoCall || tr.final.Some? ==> h2[k].state == AfterIntent(w.history[from].state, tr))
  {
    hide Reconcile, Good, Later, Follows, Valid, BrokerInv;
    var s := w.history[from].state;
    var tr := Reconcile(s, x, w.retry);
    ReconcileAdvances(s, x, w.retry);
    WritesAreOrdered(s, x, w.retry);
    EarlyWrites(s, x, w.retry);
    var v1 := Version(AfterReferences(s, tr), x.t0, ReferencesWrite);
    var h1 := Appended(w.history, c.references, v1);
    if c.references {
      AppendKeepsOrder(w.history, v1);
      WriteKeepsBroker(w.history, v1, w.broker);
    }
    var v2 := Version(AfterIntent(s, tr), x.t0, IntentWrite);
    if c.intent {
      AppendKeepsOrder(h1, v2);
      WriteKeepsBroker(h1, v2, w.broker);
    }
  }

  lemma PassKeepsBroker(w: World, from: nat, x: Inputs, c: Commits, held: bool)
    requires Inv(w) && from < |w.history| && LegalPass(w, from, x, c, held)
    ensures var w' := AfterPass(w, from, x, c, held);
      Ordered(w'.history) && BrokerInv(w'.history, w'.broker)
  {
    hide Reconcile, Good, Later, Follows, Valid, HoldInv, FaithfulInv, LifeInv, Accounts;
    var s := w.history[from].state;
    var tr := Reconcile(s, x, w.retry);
    var w' := AfterPass(w, from, x, c, held);
    var h2 := HistoryAtCall(w, from, x, c);
    var k := if |h2| > |w.history| then |h2| - 1 else from;
    PassKeepsOrder(w, from, x, c, held);
    EarlyWritesKeepBroker(w, from, x, c, held);
    DeprovisionFollowsIntent(s, x, w.retry);
    ProvisionFollowsIntent(s, x, w.retry);
    CallKeepsBroker(h2, k, w.broker, s, from + 1 == |w.history|, tr.call, x, held);
    if c.final {
      FinalAccounts(s, x, w.retry);
      ReconcileAdvances(s, x, w.retry);
      var v := Version(AfterFinal(s, tr), x.t1, FinalCause(s, tr, x));
      assert w'.history == h2 + [v];
      FinalKeepsHold(Last(h2).state, v.state, w.broker, w'.broker, s, tr.call, x, held);
      FinalKeepsFaith(Last(h2).state, v.state, w.broker, w'.broker, s, tr.call, x, held);
      FinalKeepsLife(h2, v, w.broker, w'.broker, s, tr.call, x, held);
    }
  }

  lemma PassKeepsTimely(w: World, from: nat, x: Inputs, c: Commits, held: bool)
    requires Inv(w) && from < |w.history| && LegalPass(w, from, x, c, held)
    ensures Timely(AfterPass(w, from, x, c, held).history, w.retry)
  {
    hide Reconcile, Good, Later, Follows, Valid, BrokerInv, PhaseOf;
    var s := w.history[from].state;
    RepliesRespectDeadline(s, x, w.retry);
    RemovalClearsExternal(s, x, w.retry);
  }

  lemma PassKeepsValid(w: World, from: nat, x: Inputs, c: Commits, held: bool)
    requires Inv(w) && from < |w.history| && LegalPass(w, from, x, c, held) && w.validates
    ensures forall v :: v in AfterPass(w, from, x, c, held).history ==> Valid(v.state)
  {
    hide Reconcile, Good, Later, Follows, Valid, BrokerInv, PhaseOf;
  }

  lemma PassKeepsInv(w: World, from: nat, x: Inputs, c: Commits, held: bool)
    requires Inv(w) && from < |w.history| && LegalPass(w, from, x, c, held)
    ensures Inv(AfterPass(w, from, x, c, held))
  {
    hide Reconcile, Good, Later, Follows, Valid, BrokerInv, PhaseOf, LegalPass, Ordered, Timely;
    PassKeepsBroker(w, from, x, c, held);
    PassKeepsTimely(w, from, x, c, held);
    if w.validates {
      PassKeepsValid(w, from, x, c, held);
    }
  }

  /** What users do to the stored object. */
  lemma EditKeepsInv(w: World, n: Instance)
    requires Inv(w) && (n == Stored(w) || (!Stored(w).deleted && exists raise :: n == Deleted(Stored(w), raise)))
    ensures Inv(w.(history := w.history + [Version(n, w.now, Environment)]))
  {
    var v := Version(n, w.now, Environment);
    assert Good(n) && Succeeds(Stored(w), n);
    AppendKeepsOrder(w.history, v);
    WriteKeepsBroker(w.history, v, w.broker);
  }

  lemma StepKeepsInv(w: World, e: Event)
    requires Inv(w) && Legal(w, e)
    ensures Inv(Next(w, e))
  {
    match e
    case Pass(from, x, c, held) => PassKeepsInv(w, from, x, c, held);
    case UserUpdate => EditKeepsInv(w, Stored(w));
    case UserDelete(raise) => EditKeepsInv(w, Deleted(Stored(w), raise));
    case Vanish =>
    case Tick(_) =>
    case BrokerActs(_) =>
  }

  lemma {:induction false} RunKeepsInv(w: World, es: seq<Event>, w': World)
    requires Inv(w) && Runs(w, es, w')
    ensures Inv(w')
    decreases |es|
  {
    if es != [] {
      StepKeepsInv(w, es[0]);
      RunKeepsInv(Next(w, es[0]), es[1..], w');
    }
  }

  lemma InitInv(w: World)
    requires Init(w)
    ensures Inv(w)
  {
  }

  /** Every reachable world satisfies the invariant. */
  lemma ReachableInv(w: World)
    requires Reachable(w)
    ensures Inv(w)
  {
    hide Runs, Inv;
    var w0, es :| Init(w0) && Runs(w0, es, w);
    InitInv(w0);
    RunKeepsInv(w0, es, w);
  }
}
