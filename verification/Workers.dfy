/**
  The workers of one queue. Any number of them run at once; each takes a key, reconciles it, and
  decides in separate steps whether to requeue, drop or forget it, so that anything may happen in
  between. A reconcile queue forgets a key after a success and gets limited additions only from its
  own workers. The polling queue does not forget, and the controller adds and forgets keys there.
 */
module Workers {
  import opened Common
  import opened WorkQueue

  const MAX_RETRIES: nat := 15

  datatype Place =
    | Free
    | Busy(key: Key)         // reconciling
    | Retrying(key: Key)     // about to requeue after an error
    | Dropping(key: Key)     // about to give up after an error
    | Forgetting(key: Key)   // about to forget after a success
    | Finishing(key: Key)    // about to mark the key done

  datatype Outcome = Requeued | Dropped | Succeeded

  datatype State = State(
    queue: Queue, forgetAfterSuccess: bool, workers: map<nat, Place>, outcomes: map<Key, seq<Outcome>>)

  datatype Event =
    | Arrive(key: Key)
    | ArriveLimited(key: Key, delayed: bool)   // begin and continue polling
    | ForgetKey(key: Key)                      // finish polling
    | Due(key: Key, n: nat)
    | Fetch(worker: nat)
    | Return(worker: nat, err: bool)
    | Requeue(worker: nat, delayed: bool)
    | Drop(worker: nat)
    | Succeed(worker: nat)
    | Finish(worker: nat)
    | ShutDown

  predicate Legal(s: State, e: Event) {
    match e
    case Arrive(_) => true
    case ArriveLimited(_, _) => !s.forgetAfterSuccess
    case ForgetKey(_) => !s.forgetAfterSuccess
    case Due(k, n) => 0 < n <= s.queue.waiting[k]
    case Fetch(w) => w in s.workers && s.workers[w].Free? && s.queue.line != []
    case Return(w, _) => w in s.workers && s.workers[w].Busy?
    case Requeue(w, _) => w in s.workers && s.workers[w].Retrying?
    case Drop(w) => w in s.workers && s.workers[w].Dropping?
    case Succeed(w) => w in s.workers && s.workers[w].Forgetting?
    case Finish(w) => w in s.workers && s.workers[w].Finishing?
    case ShutDown => true
  }

  function Outcomes(s: State, k: Key): seq<Outcome> {
    if k in s.outcomes then s.outcomes[k] else []
  }

  /** What becomes of a key whose reconciliation returned. */
  function Decide(q: Queue, k: Key, err: bool): Place {
    if !err then Forgetting(k) else if Requeues(q, k) < MAX_RETRIES then Retrying(k) else Dropping(k)
  }

  function Settle(s: State, w: nat, q: Queue, k: Key, o: Outcome): State {
    s.(queue := q, workers := s.workers[w := Finishing(k)], outcomes := s.outcomes[k := Outcomes(s, k) + [o]])
  }

  function Next(s: State, e: Event): State
    requires Legal(s, e)
  {
    var q := s.queue;
    match e
    case Arrive(k) => s.(queue := Add(q, k))
    case ArriveLimited(k, delayed) => s.(queue := AddRateLimited(q, k, delayed))
    case ForgetKey(k) => s.(queue := Forget(q, k))
    case Due(k, n) => s.(queue := ComeDue(q, k, n))
    case Fetch(w) => s.(queue := Take(q), workers := s.workers[w := Busy(q.line[0])])
    case Return(w, err) => s.(workers := s.workers[w := Decide(q, s.workers[w].key, err)])
    case Requeue(w, delayed) => var k := s.workers[w].key; Settle(s, w, AddRateLimited(q, k, delayed), k, Requeued)
    case Drop(w) => var k := s.workers[w].key; Settle(s, w, Forget(q, k), k, Dropped)
    case Succeed(w) =>
      var k := s.workers[w].key;
      Settle(s, w, if s.forgetAfterSuccess then Forget(q, k) else q, k, Succeeded)
    case Finish(w) => s.(queue := Done(q, s.workers[w].key), workers := s.workers[w := Free])
    case ShutDown => s.(queue := q.(shuttingDown := true))
  }

  predicate Init(s: State) {
    s.queue == EMPTY && s.outcomes == map[] && forall w :: w in s.workers ==> s.workers[w].Free?
  }

  ghost predicate Runs(s: State, es: seq<Event>, s': State)
    decreases |es|
  {
    if es == [] then s' == s else Legal(s, es[0]) && Runs(Next(s, es[0]), es[1..], s')
  }

  ghost predicate Reachable(s: State) {
    exists s0, es :: Init(s0) && Runs(s0, es, s)
  }

  // ---------- The invariant ----------

  ghost predicate Holds(s: State, w: nat, k: Key) {
    w in s.workers && !s.workers[w].Free? && s.workers[w].key == k
  }

  ghost predicate Exclusive(s: State) {
    && Valid(s.queue)
    && (forall w, k :: Holds(s, w, k) ==> k in s.queue.processing)
    && (forall w, v, k :: Holds(s, w, k) && Holds(s, v, k) ==> w == v)
  }

  /** The requeues since the key was last dropped or forgotten. */
  function Trailing(os: seq<Outcome>): nat {
    if os == [] || Last(os) != Requeued then 0 else 1 + Trailing(os[..|os| - 1])
  }

  /** Requeued only below the limit, dropped only at the limit. */
  ghost predicate Limited(os: seq<Outcome>) {
    forall i :: 0 <= i < |os| ==>
      && (os[i] == Requeued ==> Trailing(os[..i]) < MAX_RETRIES)
      && (os[i] == Dropped ==> Trailing(os[..i]) == MAX_RETRIES)
  }

  ghost predicate Counted(s: State) {
    && (forall k :: Requeues(s.queue, k) == Trailing(Outcomes(s, k)) <= MAX_RETRIES)
    && (forall k :: Limited(Outcomes(s, k)))
    && (forall w :: w in s.workers && s.workers[w].Retrying? ==> Requeues(s.queue, s.workers[w].key) < MAX_RETRIES)
    && (forall w :: w in s.workers && s.workers[w].Dropping? ==> Requeues(s.queue, s.workers[w].key) == MAX_RETRIES)
  }

  ghost predicate Inv(s: State) { Exclusive(s) && (s.forgetAfterSuccess ==> Counted(s)) }

  /** Steps that give no key to a worker and take none away. */
  lemma SameHoldersKeepExclusive(s: State, s': State)
    requires Exclusive(s) && Valid(s'.queue) && s'.queue.processing == s.queue.processing
    requires forall w, k :: Holds(s', w, k) ==> Holds(s, w, k)
    ensures Exclusive(s')
  {
    hide Valid;
  }

  /** A change of the queue alone. */
  lemma QueueStepKeepsExclusive(s: State, q: Queue)
    requires Exclusive(s) && Valid(q) && q.processing == s.queue.processing
    ensures Exclusive(s.(queue := q))
  {
    hide Valid;
    SameHoldersKeepExclusive(s, s.(queue := q));
  }

  /** A worker moves on with its key. */
  lemma PlaceStepKeepsExclusive(s: State, s': State, w: nat, place: Place)
    requires Exclusive(s) && w in s.workers && !s.workers[w].Free? && !place.Free? && place.key == s.workers[w].key
    requires s'.workers == s.workers[w := place] && Valid(s'.queue) && s'.queue.processing == s.queue.processing
    ensures Exclusive(s')
  {
    hide Valid;
    forall v, k | Holds(s', v, k) ensures Holds(s, v, k) {}
    SameHoldersKeepExclusive(s, s');
  }

  lemma FetchKeepsExclusive(s: State, w: nat)
    requires Exclusive(s) && Legal(s, Fetch(w))
    ensures Exclusive(Next(s, Fetch(w)))
  {
    hide Valid;
    TakeKeepsValid(s.queue);
    forall v, k | v != w && Holds(Next(s, Fetch(w)), v, k) ensures Holds(s, v, k) {}
  }

  lemma FinishKeepsExclusive(s: State, w: nat)
    requires Exclusive(s) && Legal(s, Finish(w))
    ensures Exclusive(Next(s, Finish(w)))
  {
    hide Valid;
    var key := s.workers[w].key;
    assert Holds(s, w, key);
    DoneKeepsValid(s.queue, key);
    forall v, k | Holds(Next(s, Finish(w)), v, k) ensures Holds(s, v, k) && k != key {}
  }

  lemma ExclusiveIsValid(s: State)
    requires Exclusive(s)
    ensures Valid(s.queue)
  {
  }

  lemma StepKeepsExclusive(s: State, e: Event)
    requires Exclusive(s) && Legal(s, e)
    ensures Exclusive(Next(s, e))
  {
    hide Valid, Exclusive, Add, AddRateLimited;
    var q, s' := s.queue, Next(s, e);
    assert Valid(q) by { ExclusiveIsValid(s); }
    match e
    case Fetch(w) => FetchKeepsExclusive(s, w);
    case Finish(w) => FinishKeepsExclusive(s, w);
    case Arrive(k) =>
      AddKeepsValid(q, k);
      QueueStepKeepsExclusive(s, s'.queue);
    case ArriveLimited(k, delayed) =>
      AddRateLimitedKeepsValid(q, k, delayed);
      QueueStepKeepsExclusive(s, s'.queue);
    case Due(k, n) =>
      var later := q.(waiting := q.waiting[k := q.waiting[k] - n]);
      SameLineIsValid(q, later);
      AddKeepsValid(later, k);
      QueueStepKeepsExclusive(s, s'.queue);
    case ForgetKey(_) =>
      SameLineIsValid(q, s'.queue);
      QueueStepKeepsExclusive(s, s'.queue);
    case ShutDown =>
      SameLineIsValid(q, s'.queue);
      QueueStepKeepsExclusive(s, s'.queue);
    case Return(w, err) => PlaceStepKeepsExclusive(s, s', w, Decide(q, s.workers[w].key, err));
    case Requeue(w, delayed) =>
      AddRateLimitedKeepsValid(q, s.workers[w].key, delayed);
      PlaceStepKeepsExclusive(s, s', w, Finishing(s.workers[w].key));
    case Drop(w) =>
      SameLineIsValid(q, s'.queue);
      PlaceStepKeepsExclusive(s, s', w, Finishing(s.workers[w].key));
    case Succeed(w) =>
      SameLineIsValid(q, s'.queue);
      PlaceStepKeepsExclusive(s, s', w, Finishing(s.workers[w].key));
  }

  lemma LimitedGrows(os: seq<Outcome>, o: Outcome)
    requires Limited(os) && Trailing(os) <= MAX_RETRIES
    requires (o == Requeued ==> Trailing(os) < MAX_RETRIES) && (o == Dropped ==> Trailing(os) == MAX_RETRIES)
    ensures Limited(os + [o])
    ensures Trailing(os + [o]) == if o == Requeued then Trailing(os) + 1 else 0
  {
    var os' := os + [o];
    assert os'[..|os|] == os;
    forall i | 0 <= i < |os| ensures os'[..i] == os[..i] {}
  }

  /** A settled key: no other worker has it, so only its own count is at stake. */
  lemma SettleKeepsCounted(s: State, w: nat, q: Queue, k: Key, o: Outcome)
    requires Exclusive(s) && Counted(s) && Holds(s, w, k)
    requires o == Requeued ==> Requeues(s.queue, k) < MAX_RETRIES
    requires o == Dropped ==> Requeues(s.queue, k) == MAX_RETRIES
    requires forall j :: Requeues(q, j) == if j != k then Requeues(s.queue, j) else if o == Requeued then Requeues(s.queue, k) + 1 else 0
    ensures Counted(Settle(s, w, q, k, o))
  {
    LimitedGrows(Outcomes(s, k), o);
    hide Limited, Trailing, Valid;
    var s' := Settle(s, w, q, k, o);
    assert forall j :: Outcomes(s', j) == if j == k then Outcomes(s, k) + [o] else Outcomes(s, j);
    forall v | v in s'.workers && !s'.workers[v].Free? && v != w
      ensures s'.workers[v].key != k
    {
      assert Holds(s, v, s.workers[v].key);
    }
  }

  lemma StepKeepsCounted(s: State, e: Event)
    requires Exclusive(s) && Counted(s) && Legal(s, e) && s.forgetAfterSuccess
    ensures Counted(Next(s, e))
  {
    hide Limited, Trailing, Valid;
    var q, s' := s.queue, Next(s, e);
    match e
    case Requeue(w, delayed) =>
      var k := s.workers[w].key;
      SettleKeepsCounted(s, w, AddRateLimited(q, k, delayed), k, Requeued);
    case Drop(w) => SettleKeepsCounted(s, w, Forget(q, s.workers[w].key), s.workers[w].key, Dropped);
    case Succeed(w) => SettleKeepsCounted(s, w, Forget(q, s.workers[w].key), s.workers[w].key, Succeeded);
    case Arrive(_) => SameCounts(s, s');
    case Due(_, _) => SameCounts(s, s');
    case Fetch(_) => SameCounts(s, s');
    case Return(_, _) => SameCounts(s, s');
    case Finish(_) => SameCounts(s, s');
    case ShutDown => SameCounts(s, s');
  }

  /** A step that leaves the counts alone decides at most what a returning worker will do. */
  ghost predicate SameCase(s: State, before: Place, after: Place) {
    after == before || after.Free? || after.Busy? || (before.Busy? && exists err :: after == Decide(s.queue, before.key, err))
  }

  lemma SameCounts(s: State, s': State)
    requires Counted(s) && s'.outcomes == s.outcomes && s'.queue.failures == s.queue.failures
    requires forall w :: w in s'.workers ==> w in s.workers && SameCase(s, s.workers[w], s'.workers[w])
    ensures Counted(s')
  {
    assert forall k :: Requeues(s'.queue, k) == Requeues(s.queue, k) && Outcomes(s', k) == Outcomes(s, k);
  }

  lemma {:induction false} RunKeepsInv(s: State, es: seq<Event>, s': State)
    requires Inv(s) && Runs(s, es, s')
    ensures Inv(s')
    decreases |es|
  {
    if es != [] {
      StepKeepsExclusive(s, es[0]);
      if s.forgetAfterSuccess { StepKeepsCounted(s, es[0]); }
      RunKeepsInv(Next(s, es[0]), es[1..], s');
    }
  }

  lemma ReachableInv(s: State)
    requires Reachable(s)
    ensures Inv(s)
  {
    var s0, es :| Init(s0) && Runs(s0, es, s);
    RunKeepsInv(s0, es, s);
  }

  // ---------- What the workers guarantee ----------

  /** On either kind of queue, no key is with two workers at once, and a key with a worker is not in line for another. */
  lemma OneWorkerPerKey(s: State, w: nat, v: nat)
    requires Reachable(s) && w in s.workers && v in s.workers && w != v
    requires !s.workers[w].Free? && !s.workers[v].Free?
    ensures s.workers[w].key != s.workers[v].key && s.workers[w].key !in s.queue.line
  {
    ReachableInv(s);
    assert Holds(s, w, s.workers[w].key) && Holds(s, v, s.workers[v].key);
  }

  lemma RequeuesAreBounded(s: State, k: Key)
    requires Reachable(s) && s.forgetAfterSuccess
    ensures Requeues(s.queue, k) <= MAX_RETRIES
  {
    ReachableInv(s);
  }

  /** Where a position in the cycle of retries goes next. */
  lemma NextPosition(n: nat)
    ensures (n + 1) % (MAX_RETRIES + 1) == if n % (MAX_RETRIES + 1) == MAX_RETRIES then 0 else n % (MAX_RETRIES + 1) + 1
  {
  }

  /** Without a success, the requeues since the last drop count the outcomes modulo the cycle. */
  lemma {:induction false} TrailingIsPosition(os: seq<Outcome>)
    requires Limited(os) && Succeeded !in os
    ensures Trailing(os) == |os| % (MAX_RETRIES + 1)
  {
    if os != [] {
      var n := |os| - 1;
      LimitedPrefix(os, n);
      hide Limited;
      TrailingIsPosition(os[..n]);
      NextPosition(n);
      assert os[n] in os;
    }
  }

  lemma LimitedPrefix(os: seq<Outcome>, n: nat)
    requires Limited(os) && n <= |os|
    ensures Limited(os[..n])
    ensures n < |os| ==> (os[n] == Requeued ==> Trailing(os[..n]) < MAX_RETRIES) && (os[n] == Dropped ==> Trailing(os[..n]) == MAX_RETRIES)
  {
    hide Trailing;
    forall i | 0 <= i < n ensures os[..n][..i] == os[..i] && os[..n][i] == os[i] {}
  }

  /**
    A key that fails every time is requeued exactly MAX_RETRIES times, then dropped, and so on again
    whenever something adds it anew.
   */
  lemma DroppedAfterExactlyMaxRetries(s: State, k: Key, j: nat)
    requires Reachable(s) && s.forgetAfterSuccess && j < |Outcomes(s, k)| && Succeeded !in Outcomes(s, k)
    ensures Outcomes(s, k)[j] == Dropped <==> j % (MAX_RETRIES + 1) == MAX_RETRIES
  {
    ReachableInv(s);
    var os := Outcomes(s, k);
    LimitedPrefix(os, j);
    TrailingIsPosition(os[..j]);
    assert os[j] in os;
    hide Limited, Trailing;
  }

  // ---------- The worker loop ----------

  /** The queue after one worker, undisturbed, has dealt with the first key in line. */
  function Handled(q: Queue, err: bool, delayed: bool, forgetAfterSuccess: bool): Queue
    requires q.line != []
  {
    var k := q.line[0];
    var q1 := Take(q);
    Done(if !err then (if forgetAfterSuccess then Forget(q1, k) else q1)
         else if Requeues(q1, k) < MAX_RETRIES then AddRateLimited(q1, k, delayed)
         else Forget(q1, k), k)
  }

  method HandleNext(queue: RateLimitingQueue, fails: Key -> bool, delayed: bool, forgetAfterSuccess: bool) returns (exit: bool)
    requires queue.line != [] || queue.shuttingDown
    modifies queue
    ensures exit <==> old(queue.line) == []
    ensures queue.Value() == if exit then old(queue.Value())
                             else Handled(old(queue.Value()), fails(old(queue.line)[0]), delayed, forgetAfterSuccess)
  {
    var key := queue.Get();
    if key.None? {
      return true;
    }
    if !fails(key.value) {
      if forgetAfterSuccess {
        queue.ForgetFailures(key.value);
      }
    } else if Requeues(queue.Value(), key.value) < MAX_RETRIES {
      queue.PutRateLimited(key.value, delayed);
    } else {
      queue.ForgetFailures(key.value);
    }
    queue.MarkDone(key.value);
    return false;
  }

  /** What a worker does with the key it has, after its reconciliation returned. */
  function Verdict(s: State, w: nat, k: Key, err: bool, delayed: bool): Event {
    if !err then Succeed(w) else if Requeues(s.queue, k) < MAX_RETRIES then Requeue(w, delayed) else Drop(w)
  }

  lemma FourRuns(s0: State, e0: Event, e1: Event, e2: Event, e3: Event)
    requires Legal(s0, e0) && Legal(Next(s0, e0), e1) && Legal(Next(Next(s0, e0), e1), e2)
    requires Legal(Next(Next(Next(s0, e0), e1), e2), e3)
    ensures Runs(s0, [e0, e1, e2, e3], Next(Next(Next(Next(s0, e0), e1), e2), e3))
  {
    hide Legal, Next;
    var s1 := Next(s0, e0);
    var s2 := Next(s1, e1);
    var s3 := Next(s2, e2);
    assert Runs(s3, [e3], Next(s3, e3));
    assert [e2, e3][1..] == [e3] && [e1, e2, e3][1..] == [e2, e3] && [e0, e1, e2, e3][1..] == [e1, e2, e3];
    assert Runs(s2, [e2, e3], Next(s3, e3));
    assert Runs(s1, [e1, e2, e3], Next(s3, e3));
  }

  /** One turn of the loop is these four steps of a worker, with nothing in between. */
  lemma HandledInFourSteps(s: State, w: nat, err: bool, delayed: bool) returns (s': State)
    requires w in s.workers && s.workers[w].Free? && s.queue.line != []
    ensures var k := s.queue.line[0];
      && Runs(s, [Fetch(w), Return(w, err), Verdict(s, w, k, err, delayed), Finish(w)], s')
      && s'.queue == Handled(s.queue, err, delayed, s.forgetAfterSuccess) && s'.workers == s.workers
      && Outcomes(s', k) == Outcomes(s, k) +
           [if !err then Succeeded else if Requeues(s.queue, k) < MAX_RETRIES then Requeued else Dropped]
  {
    var k := s.queue.line[0];
    var s1 := Next(s, Fetch(w));
    var s2 := Next(s1, Return(w, err));
    var s3 := Next(s2, Verdict(s, w, k, err, delayed));
    s' := Next(s3, Finish(w));
    assert s'.workers == s.workers;
    FourRuns(s, Fetch(w), Return(w, err), Verdict(s, w, k, err, delayed), Finish(w));
    hide Runs;
  }

  /** How far the loop has come with what was in line when it began. */
  ghost predicate Drains(before: Queue, q: Queue, handled: seq<Key>) {
    && Valid(q) && q.shuttingDown && q.processing == before.processing
    && handled + q.line == before.line
    && q.dirty * before.processing == before.dirty * before.processing
  }

  lemma HandledDrains(before: Queue, q: Queue, handled: seq<Key>, err: bool, delayed: bool, forgetAfterSuccess: bool)
    requires Drains(before, q, handled) && q.line != []
    ensures var q' := Handled(q, err, delayed, forgetAfterSuccess);
      Drains(before, q', handled + [q.line[0]]) && q'.line == q.line[1..] && q'.shuttingDown
  {
    TakeKeepsValid(q);
  }

  /** With nobody in line, every key that needs work is with a worker. */
  lemma Drained(before: Queue, q: Queue, handled: seq<Key>)
    requires Drains(before, q, handled) && q.line == []
    ensures handled == before.line && q.processing == before.processing && q.dirty == before.dirty * before.processing
  {
    forall k | k in q.dirty ensures k in q.processing {
      assert k !in q.line;
    }
  }

  /**
    A queue that is shutting down still hands out what is in line, each key once and in order, and
    nothing more, whatever other workers have: what stays dirty is with one of them.
   */
  method Drain(queue: RateLimitingQueue, fails: Key -> bool, delayed: bool, forgetAfterSuccess: bool) returns (handled: seq<Key>)
    requires Valid(queue.Value()) && queue.shuttingDown
    modifies queue
    ensures handled == old(queue.line)
    ensures queue.line == [] && queue.processing == old(queue.processing)
    ensures queue.dirty == old(queue.dirty) * old(queue.processing)
  {
    handled := [];
    var exit := false;
    ghost var before := queue.Value();
    assert Drains(before, before, handled);
    hide Drains, Handled, Valid;
    while !exit
      invariant Drains(before, queue.Value(), handled) && queue.shuttingDown
      invariant exit ==> queue.line == []
      decreases |queue.line|, !exit
    {
      if queue.line != [] {
        HandledDrains(before, queue.Value(), handled, fails(queue.line[0]), delayed, forgetAfterSuccess);
        handled := handled + [queue.line[0]];
      }
      exit := HandleNext(queue, fails, delayed, forgetAfterSuccess);
    }
    Drained(before, queue.Value(), handled);
  }
}
