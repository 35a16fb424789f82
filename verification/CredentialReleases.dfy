/** When a credential marked for deletion can still be released by a server that validates. */
module CredentialReleases {
  import opened Common
  import opened Credentials
  import opened CredentialSteps
  import opened CredentialValidation
  import opened CredentialRuns
  import opened CredentialTheorems
  import Instances

  /** Some run leads to a release. */
  ghost predicate MayBeReleased(w: World)
    requires w.history != []
  {
    exists es, w' :: Runs(w, es, w') && w'.history != [] && !Stored(w').finalizer
  }

  /** A pass at time `t` in which everything a removal needs goes well. */
  function GoodPass(t: Time): Inputs {
    Inputs(Some(Instances.CREATED.(classRef := Some(""), planRef := Some(""))), Found, true, true, None,
           BindError, false, true, UnbindDone, t, t, true, true)
  }

  /** Such a pass releases every version that is not overtaken. */
  lemma GoodPassReleases(s: Credential, t: Time, retry: Time)
    requires Good(s) && s.deleted && s.finalizer && !s.orphan && !Overtaken(s)
    ensures var tr := Reconcile(s, GoodPass(t), retry);
      && tr.final.Some? && !AfterFinal(s, tr).finalizer && tr.eject && !tr.inject && tr.call == CallUnbind
      && (tr.intent.Some? ==> Admissible(AfterIntent(s, tr))) && Admissible(AfterFinal(s, tr))
  {
  }

  lemma ReleasesNow(w: World)
    requires Inv(w) && !w.gone && Stored(w).deleted && Stored(w).finalizer && !Stored(w).orphan && !Overtaken(Stored(w))
    ensures MayBeReleased(w)
  {
    hide Reconcile, Valid, HoldInv, BoundInv, FaithfulInv, SecretInv, ReleasedProperly, Timely, Later, Follows;
    var s, x := Stored(w), GoodPass(w.now);
    var tr := Reconcile(s, x, w.retry);
    assert Good(s);
    GoodPassReleases(s, w.now, w.retry);
    ReconcileAdvances(s, x, w.retry);
    GoodBoundary(AfterIntent(s, tr));
    GoodBoundary(AfterFinal(s, tr));
    var e := Pass(|w.history| - 1, x, Commits(tr.intent.Some?, true), SecretAccess(false, NotWritten, Written), false);
    assert Legal(w, e);
    RunsFrom(w, e, [], Next(w, e));
  }

  /**
    With validation enforced, a credential marked for deletion can still be released, by some run,
    if and only if it is not overtaken.
   */
  lemma ReleaseIsPossible(w: World)
    requires Reachable(w) && w.validates && !w.gone && Stored(w).deleted && Stored(w).finalizer
    ensures MayBeReleased(w) <==> !Overtaken(Stored(w))
  {
    ReachableInv(w);
    OrphansAreNeverStored(w, |w.history| - 1);
    hide Reconcile, Inv, Legal, Next, Valid;
    if Overtaken(Stored(w)) {
      if MayBeReleased(w) {
        var es, w' :| Runs(w, es, w') && w'.history != [] && !Stored(w').finalizer;
        StuckForever(w, es, w');
      }
    } else {
      ReleasesNow(w);
    }
  }
}
