/** When an instance marked for deletion can still be released by a server that validates. */
module InstanceReleases {
  import opened Common
  import opened Instances
  import opened InstanceSteps
  import opened InstanceCalls
  import opened InstanceValidation
  import opened InstanceRuns
  import opened InstanceTheorems

  /** Some run leads to a release. */
  ghost predicate MayBeReleased(w: World)
    requires w.history != []
  {
    exists es, w' :: Runs(w, es, w') && w'.history != [] && !Stored(w').finalizer
  }

  /** A pass at time `t` in which everything a removal needs goes well. */
  function GoodPass(t: Time, poll: PollReply): Inputs {
    Inputs(NoCredentials, None, true, None, Found, true, None, ProvisionError, DeprovisionDone, poll, t, t, true, true, true)
  }

  /** Such a pass releases every version that is neither overtaken nor waiting for a provision. */
  lemma GoodPassReleases(s: Instance, t: Time, retry: Time)
    requires Good(s) && s.deleted && s.finalizer && !s.orphan && !Overtaken(s) && PhaseOf(s) != AsyncProvisioning
    ensures var tr := Reconcile(s, GoodPass(t, PollGone), retry);
      && tr.references.None? && tr.final.Some? && !AfterFinal(s, tr).finalizer
      && !AfterIntent(s, tr).orphan && !AfterFinal(s, tr).orphan
      && (tr.intent.Some? ==> Admissible(AfterIntent(s, tr))) && Admissible(AfterFinal(s, tr))
      && !tr.call.CallProvision?
  {
  }

  /** A provision that is reported as failed leaves a version that such a pass releases. */
  lemma FailedPollEnds(s: Instance, t: Time, retry: Time)
    requires Good(s) && s.deleted && PhaseOf(s) == AsyncProvisioning
    ensures var tr := Reconcile(s, GoodPass(t, PollFailed), retry);
      var n := AfterFinal(s, tr);
      && tr.references.None? && tr.intent.None? && tr.final.Some? && !tr.call.CallProvision?
      && Admissible(n) && n.deleted && n.finalizer && !n.orphan && IsFailed(n) && PhaseOf(n) == Failed
  {
  }

  /** The event of a pass from the newest version all of whose writes commit. */
  function GoodEvent(w: World, x: Inputs): Event
    requires w.history != []
  {
    Pass(|w.history| - 1, x, Commits(false, Reconcile(Stored(w), x, w.retry).intent.Some?, true), w.broker.held)
  }

  lemma GoodEventIsLegal(w: World, x: Inputs)
    requires Inv(w) && !w.gone && GoodInputs(x) && w.now == x.t0 && x.okIntent && x.okFinal && !x.poll.PollSucceeded?
    requires var tr := Reconcile(Stored(w), x, w.retry);
      && tr.references.None? && tr.final.Some? && !tr.call.CallProvision?
      && (tr.intent.Some? ==> Admissible(AfterIntent(Stored(w), tr))) && Admissible(AfterFinal(Stored(w), tr))
    ensures Legal(w, GoodEvent(w, x))
    ensures Stored(Next(w, GoodEvent(w, x))) == AfterFinal(Stored(w), Reconcile(Stored(w), x, w.retry))
  {
    hide Reconcile, Valid, BrokerInv, Timely, Later, Follows;
    var s := Stored(w);
    var tr := Reconcile(s, x, w.retry);
    ReconcileAdvances(s, x, w.retry);
    GoodBoundary(AfterIntent(s, tr));
    GoodBoundary(AfterFinal(s, tr));
  }

  lemma ReleasesNow(w: World)
    requires Inv(w) && !w.gone && Stored(w).deleted && Stored(w).finalizer && !Stored(w).orphan
    requires !Overtaken(Stored(w)) && PhaseOf(Stored(w)) != AsyncProvisioning
    ensures MayBeReleased(w)
  {
    var x := GoodPass(w.now, PollGone);
    assert Good(Stored(w));
    GoodPassReleases(Stored(w), w.now, w.retry);
    GoodEventIsLegal(w, x);
    var e := GoodEvent(w, x);
    RunsFrom(w, e, [], Next(w, e));
  }

  lemma ReleasesLater(w: World)
    requires Inv(w) && !w.gone && Stored(w).deleted && PhaseOf(Stored(w)) == AsyncProvisioning
    ensures MayBeReleased(w)
  {
    hide Reconcile, Legal, Next, BrokerInv, Timely, Later, Follows, Valid;
    var x := GoodPass(w.now, PollFailed);
    assert Good(Stored(w));
    FailedPollEnds(Stored(w), w.now, w.retry);
    GoodEventIsLegal(w, x);
    var e := GoodEvent(w, x);
    var w1 := Next(w, e);
    StepKeepsInv(w, e);
    StaysPresent(w, e);
    ReleasesNow(w1);
    var es, w' :| Runs(w1, es, w') && w'.history != [] && !Stored(w').finalizer;
    RunsFrom(w, e, es, w');
  }

  lemma StaysPresent(w: World, e: Event)
    requires w.history != [] && Legal(w, e) && e.Pass?
    ensures Next(w, e).gone == w.gone
  {
  }

  /**
    With validation enforced, an instance marked for deletion can still be released, by some run, if
    and only if it is not overtaken.
   */
  lemma ReleaseIsPossible(w: World)
    requires Reachable(w) && w.validates && !w.gone && Stored(w).deleted && Stored(w).finalizer
    ensures MayBeReleased(w) <==> !Overtaken(Stored(w))
  {
    ReachableInv(w);
    OrphansAreNeverStored(w, |w.history| - 1);
    hide Reconcile, Inv, Legal, Next, Valid;
    if Overtaken(Stored(w)) {
      if MayBeReleased(w) {
        var es, w' :| Runs(w, es, w') && w'.history != [] && !Stored(w').finalizer;
        StuckForever(w, es, w');
      }
    } else if PhaseOf(Stored(w)) == AsyncProvisioning {
      ReleasesLater(w);
    } else {
      ReleasesNow(w);
    }
  }
}
