/**
  The hand-off between the instance queue and the polling queue, for one instance whose versions
  are those of InstanceRuns. Update notices about asynchronous operations are ignored, so only the
  controller itself keeps such an instance in a queue. The lister lags behind the store and may skip
  versions but never goes back, and the controller process may restart. One place for a worker is
  enough, since no key is ever with two (Workers.OneWorkerPerKey); each slot is what a queue knows of
  the key (WorkQueue.KeysAreIndependent).
 */
module Polling {
  import opened Common
  import opened Instances
  import opened InstanceSteps
  import opened WorkQueue
  import InstanceRuns
  import Workers

  datatype Worker =
    | Free
    | Taken                  // has the key, has not looked it up
    | Reading(from: nat)     // works on this version
    | Passed(failed: bool)   // the pass returned
    | Settled                // requeued, dropped or forgotten; not yet done

  datatype Poller = PollerFree | PollerTaken | PollerDone

  datatype State = State(
    world: InstanceRuns.World,
    seen: int,               // the version the lister shows, -1 for none
    instance: Slot,          // the key in the instance queue
    polling: Slot,           // the key in the polling queue
    worker: Worker,
    poller: Poller,
    dropped: bool            // the last worker to have the key gave it up
  )

  const ABSENT := Slot(0, false, false, 0)

  predicate Init(s: State) {
    && InstanceRuns.Init(s.world) && s.seen == -1 && s.instance == ABSENT && s.polling == ABSENT
    && s.worker.Free? && s.poller.PollerFree? && !s.dropped
  }

  datatype Event =
    | Outside(event: InstanceRuns.Event)         // users, the broker, the clock
    | Deliver(to: nat)                           // the informer delivers a version, perhaps again
    | InstanceDue(n: nat)
    | Fetch
    | Look
    | Miss                                       // the lister no longer has the instance
    | Reconciled(pass: InstanceRuns.Event, delayed: bool)
    | Settle(delayed: bool)
    | Finish
    | PollingDue(n: nat)
    | PollerFetch
    | PollerRequeue
    | PollerFinish
    | Restart

  ghost predicate Legal(s: State, e: Event)
    requires s.world.history != []
  {
    match e
    case Outside(event) => !event.Pass? && InstanceRuns.Legal(s.world, event)
    case Deliver(to) => s.seen <= to < |s.world.history|
    case InstanceDue(n) => 0 < n <= s.instance.waiting
    case Fetch => s.worker.Free? && s.instance.dirty && !s.instance.processing
    case Look => s.worker.Taken? && 0 <= s.seen
    case Miss => s.worker.Taken? && s.world.gone
    case Reconciled(pass, _) =>
      s.worker.Reading? && pass.Pass? && pass.from == s.worker.from && InstanceRuns.Legal(s.world, pass)
    case Settle(_) => s.worker.Passed?
    case Finish => s.worker.Settled?
    case PollingDue(n) => 0 < n <= s.polling.waiting
    case PollerFetch => s.poller.PollerFree? && s.polling.dirty && !s.polling.processing
    case PollerRequeue => s.poller.PollerTaken?
    case PollerFinish => s.poller.PollerDone?
    case Restart => !s.world.gone
  }

  /** instanceAdd and instanceUpdate: the first notice always counts, later ones unless they show an asynchronous operation. */
  predicate Notices(s: State, version: Instance) {
    s.seen < 0 || !version.async
  }

  /** What a pass does to the polling queue. */
  function Polled(slot: Slot, tr: Trace, delayed: bool): Slot {
    match tr.polling
    case LeavePolling => slot
    case KeepPolling => AddRateLimitedSlot(slot, delayed)
    case FinishPolling => ForgetSlot(slot)
  }

  ghost function Next(s: State, e: Event): State
    requires s.world.history != [] && Legal(s, e)
  {
    match e
    case Outside(event) => s.(world := InstanceRuns.Next(s.world, event))
    case Deliver(to) =>
      s.(seen := to, instance := if Notices(s, s.world.history[to].state) then AddSlot(s.instance) else s.instance)
    case InstanceDue(n) => s.(instance := ComeDueSlot(s.instance, n))
    case Fetch => s.(instance := TakeSlot(s.instance), worker := Taken, dropped := false)
    case Look => s.(worker := Reading(s.seen))
    case Miss => s.(worker := Passed(false))
    case Reconciled(pass, delayed) =>
      var tr := Reconcile(s.world.history[pass.from].state, pass.inputs, s.world.retry);
      s.(world := InstanceRuns.Next(s.world, pass), polling := Polled(s.polling, tr, delayed), worker := Passed(tr.failed))
    case Settle(delayed) =>
      if !s.worker.failed then s.(instance := ForgetSlot(s.instance), worker := Settled)
      else if s.instance.failures < Workers.MAX_RETRIES then
        s.(instance := AddRateLimitedSlot(s.instance, delayed), worker := Settled)
      else s.(instance := ForgetSlot(s.instance), worker := Settled, dropped := true)
    case Finish => s.(instance := DoneSlot(s.instance), worker := Free)
    case PollingDue(n) => s.(polling := ComeDueSlot(s.polling, n))
    case PollerFetch => s.(polling := TakeSlot(s.polling), poller := PollerTaken)
    case PollerRequeue => s.(instance := AddSlot(s.instance), poller := PollerDone)
    case PollerFinish => s.(polling := DoneSlot(s.polling), poller := PollerFree)
    case Restart =>
      s.(seen := |s.world.history| - 1, instance := AddSlot(ABSENT), polling := ABSENT,
         worker := Free, poller := PollerFree, dropped := false)
  }

  ghost predicate Runs(s: State, es: seq<Event>, s': State)
    decreases |es|
  {
    s.world.history != [] &&
    if es == [] then s' == s else Legal(s, es[0]) && Runs(Next(s, es[0]), es[1..], s')
  }

  ghost predicate Reachable(s: State) {
    exists s0, es :: Init(s0) && Runs(s0, es, s)
  }

  // ---------- Passes that leave without a trace ----------

  /** A pass from this version may return at once, content with it. */
  predicate Content(i: Instance) {
    !i.finalizer || (!i.async && !i.deleted && !i.orphan && (IsFailed(i) || i.reconciled == i.generation))
  }

  /** The pass failed, polling goes on, or it committed a version that is not asynchronous. */
  ghost predicate Resolved(tr: Trace, ok: bool) {
    tr.failed || tr.polling == KeepPolling || (tr.final.Some? && ok && !tr.final.value.async)
  }

  lemma ProvisionResolves(tr: Trace, o: Instance, x: Inputs, retry: Time)
    requires x.properties.Some? && !o.async
    ensures Resolved(SendProvision(tr, o, x, retry), x.okFinal)
  {
    hide SetCond, Expired, ShouldStartOrphanMitigation;
    match x.provision
    case ProvisionDone =>
    case ProvisionAccepted(_) =>
    case ProvisionHttpError(_) =>
    case ProvisionTimeout =>
    case ProvisionError =>
  }

  lemma DeprovisionResolves(tr: Trace, s: Instance, o: Instance, x: Inputs, retry: Time)
    requires !o.async
    ensures Resolved(SendDeprovision(tr, s, o, x, retry), x.okFinal)
  {
  }

  lemma PollResolves(s: Instance, x: Inputs, retry: Time)
    ensures Resolved(PollOperation(s, x, retry), x.okFinal)
  {
    hide SetCond, Expired;
  }

  /** Only from a content version does a pass return without any of these, and then it did nothing. */
  lemma PassResolves(s: Instance, x: Inputs, retry: Time)
    ensures var tr := Reconcile(s, x, retry);
      Resolved(tr, x.okFinal) || (Content(s) && tr.references.None? && tr.intent.None? && tr.final.None?)
  {
    hide SendProvision, SendDeprovision, PollOperation;
    if s.async {
      PollResolves(s, x, retry);
    } else if s.deleted || s.orphan {
      var o := if s.orphan && s.start.None? then s.(start := Some(x.t0)) else s;
      var o1 := RecordStart(o, Deprovision, x.t0);
      DeprovisionResolves(IDLE, s, o, x, retry);
      DeprovisionResolves(IDLE.(intent := Some(o1)), s, o1, x, retry);
    } else if !IsFailed(s) && s.reconciled != s.generation && x.properties.Some? {
      forall tr, o: Instance | !o.async ensures Resolved(SendProvision(tr, o, x, retry), x.okFinal) {
        ProvisionResolves(tr, o, x, retry);
      }
    }
  }

  /** A content version is not the one a pass makes asynchronous, nor is any version that pass writes before. */
  lemma AsyncPass(s: Instance, x: Inputs, retry: Time)
    requires Good(s) && GoodInputs(x)
    ensures var tr := Reconcile(s, x, retry);
      tr.final.Some? && AfterFinal(s, tr).async ==>
        !Content(s) && !Content(AfterReferences(s, tr)) && !Content(AfterIntent(s, tr))
    ensures var tr := Reconcile(s, x, retry);
      (tr.references.Some? ==> !AfterReferences(s, tr).async) && (tr.intent.Some? ==> !AfterIntent(s, tr).async)
  {
    hide SendProvision, SendDeprovision, PollBroker, SetCond;
  }

  // ---------- The invariant ----------

  /** Something other than the worker in charge will see to the instance. */
  predicate Covered(s: State) {
    || s.polling.waiting > 0 || s.polling.dirty || s.poller.PollerTaken?
    || s.instance.waiting > 0 || s.instance.dirty
    || s.dropped
  }

  predicate Async(s: State)
    requires s.world.history != []
  {
    !s.world.gone && InstanceRuns.Stored(s.world).async
  }

  /** No version that a pass may still start from is content while the newest is asynchronous. */
  ghost predicate Restless(h: seq<InstanceRuns.Version>, from: int) {
    h != [] && Last(h).state.async ==> forall i :: from <= i < |h| && 0 <= i ==> !Content(h[i].state)
  }

  ghost predicate Inv(s: State) {
    && s.world.history != [] && InstanceRuns.Inv(s.world)
    && -1 <= s.seen < |s.world.history|
    && (s.worker.Reading? ==> s.worker.from <= s.seen)
    && (!s.worker.Free? <==> s.instance.processing) && (!s.poller.PollerFree? <==> s.polling.processing)
    && Restless(s.world.history, if s.worker.Reading? then s.worker.from else s.seen)
    && (Async(s) && (s.worker.Free? || s.worker.Settled? || s.worker == Passed(false)) ==> Covered(s))
  }

  /** An asynchronous version is not content. */
  lemma AsyncIsRestless(w: InstanceRuns.World)
    requires w.history != [] && InstanceRuns.Inv(w)
    ensures Restless(w.history, |w.history| - 1)
  {
    hide Later, Follows, InstanceRuns.BrokerInv, InstanceRuns.Timely;
  }

  lemma OutsideKeepsInv(s: State, event: InstanceRuns.Event)
    requires Inv(s) && Legal(s, Outside(event))
    ensures Inv(Next(s, Outside(event)))
  {
    var w' := InstanceRuns.Next(s.world, event);
    InstanceRuns.StepKeepsInv(s.world, event);
    hide InstanceRuns.Inv, Content;
    AsyncIsRestless(w');
  }

  lemma PassGrows(w: InstanceRuns.World, e: InstanceRuns.Event)
    requires w.history != [] && e.Pass? && InstanceRuns.Legal(w, e)
    ensures var h' := InstanceRuns.Next(w, e).history;
      w.history <= h' && (|h'| > |w.history| ==> e.from + 1 == |w.history|)
  {
    hide Reconcile, InstanceRuns.Answered, InstanceRuns.MayBecome, InstanceRuns.Honest;
  }

  /** The versions a pass adds, if it adds any and ends asynchronous. */
  lemma PassVersions(w: InstanceRuns.World, e: InstanceRuns.Event)
    requires w.history != [] && InstanceRuns.Inv(w) && e.Pass? && InstanceRuns.Legal(w, e)
    ensures var h' := InstanceRuns.Next(w, e).history;
      && w.history <= h'
      && (|h'| > |w.history| ==> e.from + 1 == |w.history| && Restless(h', e.from))
  {
    hide Reconcile, InstanceRuns.Answered, InstanceRuns.MayBecome, InstanceRuns.Honest, InstanceRuns.BrokerInv,
         InstanceRuns.Timely, Good, Later, Follows, Content, AfterReferences, AfterIntent, AfterFinal;
    PassGrows(w, e);
    AsyncPass(w.history[e.from].state, e.inputs, w.retry);
    InstanceRuns.StepKeepsInv(w, e);
    AsyncIsRestless(InstanceRuns.Next(w, e));
  }

  /** What a pass that reports no error leaves behind. */
  lemma PassCovers(s: State, pass: InstanceRuns.Event, delayed: bool)
    requires Inv(s) && Legal(s, Reconciled(pass, delayed))
    ensures var s' := Next(s, Reconciled(pass, delayed));
      s'.world.history != [] && (Async(s') && s'.worker == Passed(false) ==> Covered(s'))
  {
    var from, x := pass.from, pass.inputs;
    PassVersions(s.world, pass);
    PassResolves(s.world.history[from].state, x, s.world.retry);
    hide Reconcile, InstanceRuns.Inv, Content;
  }

  lemma PassKeepsInv(s: State, pass: InstanceRuns.Event, delayed: bool)
    requires Inv(s) && Legal(s, Reconciled(pass, delayed))
    ensures Inv(Next(s, Reconciled(pass, delayed)))
  {
    PassVersions(s.world, pass);
    PassCovers(s, pass, delayed);
    InstanceRuns.StepKeepsInv(s.world, pass);
    hide Reconcile, InstanceRuns.Inv, InstanceRuns.Legal, InstanceRuns.Next, Content;
  }

  lemma StepKeepsInv(s: State, e: Event)
    requires Inv(s) && Legal(s, e)
    ensures Inv(Next(s, e))
  {
    hide InstanceRuns.Inv, Content;
    match e
    case Outside(event) => OutsideKeepsInv(s, event);
    case Reconciled(pass, delayed) => PassKeepsInv(s, pass, delayed);
    case Restart => AsyncIsRestless(s.world);
    case Deliver(_) =>
    case InstanceDue(_) =>
    case Fetch =>
    case Look =>
    case Miss =>
    case Settle(_) =>
    case Finish =>
    case PollingDue(_) =>
    case PollerFetch =>
    case PollerRequeue =>
    case PollerFinish =>
  }

  lemma {:induction false} RunKeepsInv(s: State, es: seq<Event>, s': State)
    requires Inv(s) && Runs(s, es, s')
    ensures Inv(s')
    decreases |es|
  {
    if es != [] {
      StepKeepsInv(s, es[0]);
      RunKeepsInv(Next(s, es[0]), es[1..], s');
    }
  }

  /**
    No poll is lost: while the stored instance has an asynchronous operation, its key is in the
    polling queue or in the instance queue, or a worker has it, or the last worker to have it
    dropped it after too many failures.
   */
  lemma NoLostPoll(s: State)
    requires Reachable(s) && s.world.history != [] && Async(s)
    ensures s.polling.Present() || s.instance.Present() || s.dropped
  {
    var s0, es :| Init(s0) && Runs(s0, es, s);
    RunKeepsInv(s0, es, s);
  }
}
